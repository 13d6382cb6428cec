/**
 Passing an arbitrary command to `sh -c` as one argument. `Quoted` is what the sandbox writes; the
 shell that reads it is the token recognition and quote removal of the POSIX.1-2017 Shell Command
 Language, sections 2.2 and 2.3, on one line without here-documents.
*/
module ShellQuote {

  import Text

  // ---------------------------------------------------------------- the shell's side

  // A character of a word, and whether it was quoted: expansions and globbing apply only to the
  // characters that were not.
  datatype Piece = Piece(c: char, quoted: bool)

  datatype Mode = Bare | Single | Double

  // `rest` is what follows the word. A quote left open, or a backslash at the very end, is no word.
  datatype Lexed = Word(text: seq<Piece>, rest: string) | Unfinished

  predicate Blank(c: char) {
    c == ' ' || c == '\t'
  }

  // Unquoted, these end the word before them (section 2.3, rules 6 to 8).
  predicate Delimits(c: char) {
    Blank(c) || c == '\n' || c == ';' || c == '&' || c == '|' || c == '<' || c == '>' || c == '(' || c == ')'
  }

  // Inside double quotes a backslash keeps its meaning only before these (section 2.2.3).
  predicate Escapable(c: char) {
    c == '$' || c == '`' || c == '"' || c == '\\' || c == '\n'
  }

  function Behind(p: Piece, r: Lexed): Lexed {
    if r.Word? then Word([p] + r.text, r.rest) else r
  }

  function Lex(s: string, mode: Mode): (r: Lexed)
    ensures r.Word? ==> |r.text| + |r.rest| <= |s|
    ensures r.Word? && s != "" && (mode != Bare || !Delimits(s[0])) ==> |r.rest| < |s|
    decreases |s|
  {
    if s == "" then
      if mode == Bare then Word([], "") else Unfinished
    else
      match mode
      case Bare =>
        if Delimits(s[0]) then Word([], s)
        else if s[0] == '\'' then Lex(s[1..], Single)
        else if s[0] == '"' then Lex(s[1..], Double)
        else if s[0] == '\\' then
          if |s| == 1 then Unfinished
          else if s[1] == '\n' then Lex(s[2..], Bare)
          else Behind(Piece(s[1], true), Lex(s[2..], Bare))
        else Behind(Piece(s[0], false), Lex(s[1..], Bare))
      case Single =>
        if s[0] == '\'' then Lex(s[1..], Bare)
        else Behind(Piece(s[0], true), Lex(s[1..], Single))
      case Double =>
        if s[0] == '"' then Lex(s[1..], Bare)
        else if s[0] == '\\' && |s| > 1 && Escapable(s[1]) then
          if s[1] == '\n' then Lex(s[2..], Double)
          else Behind(Piece(s[1], true), Lex(s[2..], Double))
        else if s[0] == '$' || s[0] == '`' then Behind(Piece(s[0], false), Lex(s[1..], Double))
        else Behind(Piece(s[0], true), Lex(s[1..], Double))
  }

  // The words of a simple command, and what stands after them: an operator, a newline or nothing.
  datatype Command = Argv(words: seq<seq<Piece>>, rest: string) | Broken

  function Words(s: string): Command
    decreases |s|
  {
    if s == "" || (Delimits(s[0]) && !Blank(s[0])) then Argv([], s)
    else if Blank(s[0]) then Words(s[1..])
    else
      match Lex(s, Bare)
      case Unfinished => Broken
      case Word(text, rest) =>
        var r := Words(rest);
        if r.Argv? then Argv([text] + r.words, r.rest) else r
  }

  function Literal(s: string): seq<Piece> {
    seq(|s|, i requires 0 <= i < |s| => Piece(s[i], true))
  }

  function Plain(s: string): seq<Piece> {
    seq(|s|, i requires 0 <= i < |s| => Piece(s[i], false))
  }

  // ---------------------------------------------------------------- the sandbox's side

  function Spelled(c: char): string {
    if c == '\'' then "'\\''" else [c]
  }

  function Escaped(s: string): string {
    if s == "" then ""
    else Spelled(s[0]) + Escaped(s[1..])
  }

  function Quoted(s: string): string {
    "'" + Escaped(s) + "'"
  }

  // `limit` is the text of the CPU time limit, a number that may have a fraction.
  function Timeout(limit: string): seq<string> {
    ["timeout", "-s", "KILL", limit, "sh", "-c"]
  }

  // The line that runs the command, with whatever the script goes on with.
  function TimeoutLine(limit: string, command: string, script: string): string {
    Text.Join(Timeout(limit) + [Quoted(command) + ";" + script], ' ')
  }

  // ---------------------------------------------------------------- one word, whatever it holds

  function Ahead(ps: seq<Piece>, r: Lexed): Lexed {
    if r.Word? then Word(ps + r.text, r.rest) else r
  }

  lemma {:induction false} InsideQuotes(s: string, rest: string)
    ensures Lex(Escaped(s) + "'" + rest, Single) == Ahead(Literal(s), Lex(rest, Bare))
    decreases |s|
  {
    if s == "" {
      assert Escaped(s) + "'" + rest == ['\''] + rest;
      assert (['\''] + rest)[1..] == rest;
    } else {
      var more := Escaped(s[1..]) + "'" + rest;
      InsideQuotes(s[1..], rest);
      LiteralSplit(s);
      EscapedSplit(s, rest);
      OneInside(s[0], more);
    }
  }

  lemma EscapedSplit(s: string, rest: string)
    requires s != ""
    ensures Escaped(s) + "'" + rest == Spelled(s[0]) + (Escaped(s[1..]) + "'" + rest)
  {
  }

  lemma OneInside(c: char, more: string)
    ensures Lex(Spelled(c) + more, Single) == Behind(Piece(c, true), Lex(more, Single))
  {
    if c == '\'' {
      ClosedEscapedReopened(more);
    } else {
      TakenAsIs(c, more);
    }
  }

  lemma LiteralSplit(s: string)
    requires s != ""
    ensures forall r: Lexed :: Ahead(Literal(s), r) == Behind(Piece(s[0], true), Ahead(Literal(s[1..]), r))
  {
    assert Literal(s) == [Piece(s[0], true)] + Literal(s[1..]);
    forall r: Lexed | r.Word?
      ensures Literal(s) + r.text == [Piece(s[0], true)] + (Literal(s[1..]) + r.text)
    {
    }
  }

  lemma TakenAsIs(c: char, more: string)
    requires c != '\''
    ensures Lex([c] + more, Single) == Behind(Piece(c, true), Lex(more, Single))
  {
    assert ([c] + more)[1..] == more;
  }

  lemma ClosedEscapedReopened(more: string)
    ensures Lex("'\\''" + more, Single) == Behind(Piece('\'', true), Lex(more, Single))
  {
    var a := "'\\''" + more;
    var b := a[1..];
    var c := b[2..];
    assert b[0] == '\\' && b[1] == '\'' && c[0] == '\'' && c[1..] == more;
    assert Lex(a, Single) == Lex(b, Bare);
    assert Lex(b, Bare) == Behind(Piece('\'', true), Lex(c, Bare));
  }

  // The quoted form, before anything at all, puts every character of the original into the current
  // word, each of them quoted, and leaves the shell where it was.
  lemma QuoteRemoval(s: string, rest: string)
    ensures Lex(Quoted(s) + rest, Bare) == Ahead(Literal(s), Lex(rest, Bare))
  {
    InsideQuotes(s, rest);
    assert Quoted(s) + rest == ['\''] + (Escaped(s) + "'" + rest);
    assert (['\''] + (Escaped(s) + "'" + rest))[1..] == Escaped(s) + "'" + rest;
  }

  lemma QuotedInjective(s: string, t: string)
    requires Quoted(s) == Quoted(t)
    ensures s == t
  {
    QuoteRemoval(s, "");
    QuoteRemoval(t, "");
    assert Lex("", Bare) == Word([], "");
    assert Literal(s) + [] == Literal(s) && Literal(t) + [] == Literal(t);
    forall i | 0 <= i < |s|
      ensures s[i] == t[i]
    {
      assert Literal(s)[i] == Literal(t)[i];
    }
  }

  // ---------------------------------------------------------------- a word without quotes

  predicate Ordinary(c: char) {
    !Delimits(c) && c != '\'' && c != '"' && c != '\\'
  }

  lemma {:induction false} PlainGoesOn(s: string, rest: string)
    requires forall i :: 0 <= i < |s| ==> Ordinary(s[i])
    ensures Lex(s + rest, Bare) == Ahead(Plain(s), Lex(rest, Bare))
    decreases |s|
  {
    if s == "" {
      assert s + rest == rest;
    } else {
      PlainGoesOn(s[1..], rest);
      assert (s + rest)[1..] == s[1..] + rest;
      assert Plain(s) == [Piece(s[0], false)] + Plain(s[1..]);
    }
  }

  lemma {:induction false} LexedPlain(s: string)
    ensures Lex(s, Bare) == Word(Plain(s), "") <==> forall i :: 0 <= i < |s| ==> Ordinary(s[i])
    decreases |s|
  {
    if s != "" {
      LexedPlain(s[1..]);
      assert Plain(s) == [Piece(s[0], false)] + Plain(s[1..]);
      assert s == [s[0]] + s[1..];
      if Ordinary(s[0]) {
        assert forall i :: 0 < i < |s| ==> s[i] == s[1..][i - 1];
        if Lex(s, Bare) == Word(Plain(s), "") {
          assert Lex(s[1..], Bare).text == Lex(s, Bare).text[1..] == Plain(s[1..]);
        }
      }
    }
  }

  // Unquoted, these may be expanded or read as something else (section 2.2).
  predicate Special(c: char) {
    c == '$' || c == '`' || c == '*' || c == '?' || c == '[' || c == '#' || c == '~' || c == '=' || c == '%'
  }

  // Nothing in the word is left for the shell to expand.
  predicate Inert(ps: seq<Piece>) {
    forall i :: 0 <= i < |ps| ==> ps[i].quoted || !Special(ps[i].c)
  }

  lemma {:induction false} FirstWordFits(s: string)
    ensures var r := Words(s); r.Argv? && r.words != [] ==> |r.words[0]| <= |s|
    ensures var r := Words(s); r.Argv? && r.words != [] && Blank(s[0]) ==> |r.words[0]| < |s|
    decreases |s|
  {
    if s != "" && Blank(s[0]) {
      FirstWordFits(s[1..]);
    }
  }

  // Without quotes a string arrives as one word of its own characters, with nothing left to expand,
  // exactly if it is not empty and holds no delimiter, no quote, no backslash and no special character.
  lemma UnquotedIff(s: string)
    ensures Words(s) == Argv([Plain(s)], "") && Inert(Plain(s)) <==>
        s != "" && forall i :: 0 <= i < |s| ==> Ordinary(s[i]) && !Special(s[i])
  {
    FirstWordFits(s);
    LexedPlain(s);
    assert Inert(Plain(s)) <==> forall i :: 0 <= i < |s| ==> !Special(s[i]) by {
      assert forall i :: 0 <= i < |s| ==> Plain(s)[i] == Piece(s[i], false);
    }
    if s != "" && !Delimits(s[0]) {
      BareWords(s);
    }
  }

  lemma BareWords(s: string)
    requires s != "" && !Delimits(s[0])
    ensures Words(s) == Argv([Plain(s)], "") <==> Lex(s, Bare) == Word(Plain(s), "")
  {
    var r := Lex(s, Bare);
    assert Words("") == Argv([], "");
    if r.Word? {
      var more := Words(r.rest);
      assert more.Argv? ==> Words(s) == Argv([r.text] + more.words, more.rest);
      if Words(s) == Argv([Plain(s)], "") {
        assert ([r.text] + more.words)[0] == r.text == Plain(s);
        assert |r.text| == |s| && r.rest == "";
      }
    }
  }

  // A quoted string is always inert.
  lemma QuotedInert(s: string)
    ensures Inert(Literal(s))
  {
  }

  // ---------------------------------------------------------------- the command line

  lemma OneMoreWord(s: string, text: seq<Piece>, rest: string, r: Command)
    requires s != "" && !Delimits(s[0])
    requires Lex(s, Bare) == Word(text, rest) && Words(rest) == r && r.Argv?
    ensures Words(s) == Argv([text] + r.words, r.rest)
  {
  }

  predicate Bareword(w: string) {
    w != "" && forall i :: 0 <= i < |w| ==> Ordinary(w[i])
  }

  lemma PlainWord(w: string, s: string, words: seq<seq<Piece>>, rest: string)
    requires Bareword(w)
    requires Words(s) == Argv(words, rest)
    ensures Words(w + " " + s) == Argv([Plain(w)] + words, rest)
  {
    PlainGoesOn(w, " " + s);
    assert (" " + s)[1..] == s;
    assert Words(" " + s) == Words(s);
    assert w + " " + s == w + (" " + s);
    assert Lex(" " + s, Bare) == Word([], " " + s);
    assert Plain(w) + [] == Plain(w);
    OneMoreWord(w + " " + s, Plain(w), " " + s, Words(s));
  }

  function Plains(ws: seq<string>): seq<seq<Piece>> {
    seq(|ws|, i requires 0 <= i < |ws| => Plain(ws[i]))
  }

  lemma {:induction false} PlainWords(ws: seq<string>, last: string, words: seq<seq<Piece>>, rest: string)
    requires forall w :: w in ws ==> Bareword(w)
    requires Words(last) == Argv(words, rest)
    ensures Words(Text.Join(ws + [last], ' ')) == Argv(Plains(ws) + words, rest)
    decreases |ws|
  {
    if ws == [] {
      assert ws + [last] == [last];
      assert Plains(ws) + words == words;
    } else {
      PlainWords(ws[1..], last, words, rest);
      assert (ws + [last])[1..] == ws[1..] + [last];
      assert Text.Join(ws + [last], ' ') == ws[0] + " " + Text.Join(ws[1..] + [last], ' ');
      assert ws[0] in ws;
      PlainWord(ws[0], Text.Join(ws[1..] + [last], ' '), Plains(ws[1..]) + words, rest);
      assert [Plain(ws[0])] + (Plains(ws[1..]) + words) == Plains(ws) + words;
    }
  }

  lemma LastWord(command: string, tail: string)
    ensures Words(Quoted(command) + (";" + tail)) == Argv([Literal(command)], ";" + tail)
  {
    var s := ";" + tail;
    QuoteRemoval(command, s);
    assert Lex(s, Bare) == Word([], s);
    assert Literal(command) + [] == Literal(command);
    OneMoreWord(Quoted(command) + s, Literal(command), s, Argv([], s));
  }

  // The text of any number, whole or with decimals, is such a word.
  lemma DecimalIsBareword(n: nat, decimals: string)
    requires decimals == "" || Text.AllDigits(decimals)
    ensures Bareword(Text.NatText(n) + if decimals == "" then "" else "." + decimals)
  {
    Text.NatTextRoundTrip(n);
    assert forall i :: 0 <= i < |decimals| ==> Text.IsDigit(decimals[i]);
  }

  // Whatever the command holds, `timeout` is run with six arguments and the command is the last of
  // them, every character as given, with nothing for this shell to expand; the `;` ends it and the rest
  // of the script is untouched.
  lemma CommandIsOneArgument(limit: string, command: string, script: string)
    requires Bareword(limit)
    ensures Words(TimeoutLine(limit, command, script))
      == Argv([Plain("timeout"), Plain("-s"), Plain("KILL"), Plain(limit), Plain("sh"), Plain("-c"),
               Literal(command)], ";" + script)
    ensures Inert(Literal(command))
  {
    QuotedInert(command);
    LastWord(command, script);
    assert Quoted(command) + ";" + script == Quoted(command) + (";" + script);
    TimeoutWords(limit);
    PlainWords(Timeout(limit), Quoted(command) + ";" + script, [Literal(command)], ";" + script);
    assert Plains(Timeout(limit)) + [Literal(command)]
      == [Plain("timeout"), Plain("-s"), Plain("KILL"), Plain(limit), Plain("sh"), Plain("-c"), Literal(command)];
  }

  lemma TimeoutWords(limit: string)
    requires Bareword(limit)
    ensures forall w :: w in Timeout(limit) ==> Bareword(w)
  {
  }
}
