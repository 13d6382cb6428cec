/**
 The text layer of the wire format: decimal numbers, trimming, joining and the
 three ways the generated harnesses cut a line into pieces. Strings are `seq<char>`.
*/
module Text {

  // What a JavaScript harness holds after `Number(token)`: an integer, or NaN for
  // anything that is not a plain decimal integer.
  datatype Value = Int(n: int) | NaN

  // The ASCII blanks.
  predicate IsBlank(c: char) {
    c == ' ' || c == '\t' || c == '\r' || c == '\n' || c == '\U{000B}' || c == '\U{000C}'
  }

  // The blanks beyond ASCII that JavaScript's `trim` takes off as well.
  predicate IsWide(c: char) {
    var n := c as int;
    n >= 0xA0 && (n == 0xA0 || n == 0x1680 || 0x2000 <= n <= 0x200A || n == 0x2028 || n == 0x2029
                  || n == 0x202F || n == 0x205F || n == 0x3000 || n == 0xFEFF)
  }

  predicate IsSpace(c: char) {
    IsBlank(c) || IsWide(c)
  }

  predicate IsSep(c: char) {
    c == ' ' || c == ','
  }

  predicate IsDigit(c: char) {
    '0' <= c <= '9'
  }

  predicate AllDigits(s: string) {
    s != "" && forall i :: 0 <= i < |s| ==> IsDigit(s[i])
  }

  // A word survives trimming, joining and splitting on its own.
  predicate IsWord(s: string) {
    s != "" && forall i :: 0 <= i < |s| ==> !IsSpace(s[i]) && !IsSep(s[i]) && s[i] != ';'
  }

  // ---------------------------------------------------------------- numbers

  function NatText(n: nat): string {
    if n < 10 then [('0' as int + n) as char]
    else NatText(n / 10) + [('0' as int + n % 10) as char]
  }

  function NatValue(s: string): nat
    requires forall i :: 0 <= i < |s| ==> IsDigit(s[i])
  {
    if s == "" then 0
    else assert IsDigit(s[|s| - 1]); NatValue(s[..|s| - 1]) * 10 + (s[|s| - 1] as int - '0' as int)
  }

  function ToText(v: Value): string {
    match v
    case NaN => "NaN"
    case Int(n) => if n < 0 then "-" + NatText(-n) else NatText(n)
  }

  function Number(s: string): Value {
    if s == "" then Int(0)
    else if AllDigits(s) then Int(NatValue(s))
    else if s[0] == '-' && AllDigits(s[1..]) then Int(0 - NatValue(s[1..]))
    else NaN
  }

  lemma {:induction false} NatTextRoundTrip(n: nat)
    ensures AllDigits(NatText(n)) && NatValue(NatText(n)) == n
  {
    if n >= 10 {
      NatTextRoundTrip(n / 10);
      var s := NatText(n);
      assert s[..|s| - 1] == NatText(n / 10);
    } else {
      assert NatText(n)[..0] == "";
    }
  }

  lemma {:induction false} Positive(s: string)
    requires AllDigits(s) && s[0] != '0'
    ensures NatValue(s) > 0
    decreases |s|
  {
    if |s| > 1 {
      Positive(s[..|s| - 1]);
    } else {
      assert IsDigit(s[0]) && NatValue(s[..0]) == 0;
    }
  }

  // The printed text is the one numeral of that value without leading zeros.
  lemma {:induction false} NatTextCanonical(n: nat, s: string)
    requires AllDigits(s) && (s[0] == '0' ==> |s| == 1)
    ensures s == NatText(n) <==> NatValue(s) == n
    decreases |s|
  {
    var k := |s| - 1;
    assert IsDigit(s[k]);
    NatTextRoundTrip(n);
    if NatValue(s) == n {
      if k == 0 {
        assert NatValue(s[..0]) == 0;
      } else {
        Positive(s[..k]);
        NatTextCanonical(n / 10, s[..k]);
        assert s == s[..k] + [s[k]];
      }
    }
  }

  lemma DigitsWord(s: string)
    requires AllDigits(s)
    ensures IsWord(s) && IsWord("-" + s)
  {
    assert IsWord("-");
    forall i | 0 <= i < |s|
      ensures !IsSpace(s[i]) && !IsSep(s[i]) && s[i] != ';'
    {
      assert IsDigit(s[i]);
    }
  }

  lemma NatTextNumber(n: nat)
    ensures Number(NatText(n)) == Int(n) && IsWord(NatText(n)) && IsDigit(NatText(n)[0])
  {
    NatTextRoundTrip(n);
    DigitsWord(NatText(n));
  }

  lemma NegativeNumber(n: nat)
    requires n > 0
    ensures Number("-" + NatText(n)) == Int(0 - n) && IsWord("-" + NatText(n))
  {
    NatTextRoundTrip(n);
    DigitsWord(NatText(n));
    var s := "-" + NatText(n);
    assert s[0] == '-' && s[1..] == NatText(n);
    assert !IsDigit(s[0]);
    assert !AllDigits(s) && AllDigits(s[1..]);
  }

  // Printing a number and reading it back is the identity, and a printed number is a word
  // that can never be mistaken for the marker of an absent child.
  lemma NumberRoundTrip(v: Value)
    ensures Number(ToText(v)) == v
    ensures IsWord(ToText(v)) && ToText(v) != "null" && (v == NaN <==> ToText(v) == "NaN")
  {
    assert "null"[0] == 'n';
    match v
    case Int(n) =>
      if n < 0 {
        NegativeNumber(-n);
        assert ToText(v)[0] == '-';
      } else {
        NatTextNumber(n);
        assert IsDigit(ToText(v)[0]);
      }
    case NaN =>
      assert !IsDigit("NaN"[0]);
  }

  // ---------------------------------------------------------------- trim and join

  function TrimLeft(s: string): (r: string)
    ensures r == "" || !IsSpace(r[0])
    ensures |r| <= |s| && r == s[|s| - |r|..]
    ensures forall i :: 0 <= i < |s| - |r| ==> IsSpace(s[i])
  {
    if s != "" && IsSpace(s[0]) then TrimLeft(s[1..]) else s
  }

  function TrimRight(s: string): (r: string)
    ensures r == "" || !IsSpace(r[|r| - 1])
    ensures |r| <= |s| && r == s[..|r|]
  {
    if s != "" && IsSpace(s[|s| - 1]) then TrimRight(s[..|s| - 1]) else s
  }

  function Trim(s: string): (r: string)
    ensures r != "" ==> !IsSpace(r[0]) && !IsSpace(r[|r| - 1])
  {
    TrimRight(TrimLeft(s))
  }

  predicate Tidy(s: string) {
    s == "" || (!IsSpace(s[0]) && !IsSpace(s[|s| - 1]))
  }

  lemma TrimTidy(s: string)
    requires Tidy(s)
    ensures Trim(s) == s
  {
    assert TrimLeft(s) == s && TrimRight(s) == s;
  }

  function Join(parts: seq<string>, sep: char): string {
    if |parts| == 0 then ""
    else if |parts| == 1 then parts[0]
    else parts[0] + [sep] + Join(parts[1..], sep)
  }

  lemma {:induction false} JoinWords(ws: seq<string>)
    requires forall i :: 0 <= i < |ws| ==> IsWord(ws[i])
    ensures ws == [] <==> Join(ws, ' ') == ""
    ensures forall i :: 0 <= i < |Join(ws, ' ')| ==> Join(ws, ' ')[i] != ';'
    ensures forall i :: 0 <= i < |Join(ws, ' ')| ==> Join(ws, ' ')[i] == ' ' || !IsSpace(Join(ws, ' ')[i])
    ensures Tidy(Join(ws, ' '))
    ensures ws != [] ==> var t := Join(ws, ' '); t[0] != ',' && t[|t| - 1] != ','
  {
    if |ws| > 1 {
      assert IsWord(ws[0]);
      JoinWords(ws[1..]);
      var t := Join(ws, ' ');
      var rest := Join(ws[1..], ' ');
      assert t == ws[0] + " " + rest;
      assert t[|t| - 1] == rest[|rest| - 1];
      assert t[0] == ws[0][0];
    } else if |ws| == 1 {
      assert IsWord(ws[0]);
    }
  }

  // ---------------------------------------------------------------- splitting

  function DropSeps(s: string): (r: string)
    ensures |r| <= |s| && r == s[|s| - |r|..]
    ensures r == "" || !IsSep(r[0])
    ensures forall i :: 0 <= i < |s| - |r| ==> IsSep(s[i])
  {
    if s != "" && IsSep(s[0]) then DropSeps(s[1..]) else s
  }

  // `s.split(/[ ,]+/)`: cut at every run of spaces and commas. `cur` is the piece being read.
  function SplitRuns(cur: string, s: string): (r: seq<string>)
    ensures r != []
    decreases |s|
  {
    if s == "" then [cur]
    else if IsSep(s[0]) then [cur] + SplitRuns("", DropSeps(s[1..]))
    else SplitRuns(cur + [s[0]], s[1..])
  }

  // The JavaScript tokenizer: trim, nothing for an empty line, otherwise cut at the runs.
  function Tokens(s: string): seq<string> {
    var t := Trim(s);
    if t == "" then [] else SplitRuns("", t)
  }

  // The C++ tokenizer: commas become blanks and the pieces are the maximal blank-free runs, so no piece
  // is ever empty. Java, Go and Python cut the same way, up to which blanks beyond ASCII they know.
  function FieldRuns(cur: string, s: string): seq<string>
    decreases |s|
  {
    var head := if cur == "" then [] else [cur];
    if s == "" then head
    else if IsBlank(s[0]) || IsSep(s[0]) then head + FieldRuns("", s[1..])
    else FieldRuns(cur + [s[0]], s[1..])
  }

  function Fields(s: string): seq<string> {
    FieldRuns("", s)
  }

  // `s.split(c)` for one character: always at least one piece, and empty pieces are kept.
  function SplitAt(cur: string, s: string, c: char): (r: seq<string>)
    ensures r != []
    decreases |s|
  {
    if s == "" then [cur]
    else if s[0] == c then [cur] + SplitAt("", s[1..], c)
    else SplitAt(cur + [s[0]], s[1..], c)
  }

  lemma {:induction false} SplitRunsWord(cur: string, w: string, s: string)
    requires forall i :: 0 <= i < |w| ==> !IsSep(w[i])
    ensures SplitRuns(cur, w + s) == SplitRuns(cur + w, s)
    decreases |w|
  {
    if w == "" {
      assert w + s == s && cur + w == cur;
    } else {
      assert (w + s)[0] == w[0] && (w + s)[1..] == w[1..] + s;
      SplitRunsWord(cur + [w[0]], w[1..], s);
      assert cur + [w[0]] + w[1..] == cur + w;
    }
  }

  lemma {:induction false} SplitRunsJoin(ws: seq<string>)
    requires ws != [] && forall i :: 0 <= i < |ws| ==> IsWord(ws[i])
    ensures SplitRuns("", Join(ws, ' ')) == ws
  {
    assert IsWord(ws[0]);
    if |ws| == 1 {
      SplitRunsWord("", ws[0], "");
      assert ws[0] + "" == ws[0] && "" + ws[0] == ws[0];
    } else {
      var rest := Join(ws[1..], ' ');
      JoinWords(ws[1..]);
      assert Join(ws, ' ') == ws[0] + ([' '] + rest);
      SplitRunsWord("", ws[0], [' '] + rest);
      assert "" + ws[0] == ws[0] && ([' '] + rest)[1..] == rest;
      SplitRunsJoin(ws[1..]);
    }
  }

  // Tokens of a printed line are exactly the words that were printed, for every list of words.
  lemma TokensOfJoin(ws: seq<string>)
    requires forall i :: 0 <= i < |ws| ==> IsWord(ws[i])
    ensures Tokens(Join(ws, ' ')) == ws
  {
    JoinWords(ws);
    TrimTidy(Join(ws, ' '));
    if ws != [] {
      SplitRunsJoin(ws);
    }
  }

  lemma {:induction false} SplitAtPiece(cur: string, p: string, s: string, c: char)
    requires c !in p
    ensures SplitAt(cur, p + s, c) == SplitAt(cur + p, s, c)
    decreases |p|
  {
    if p == "" {
      assert p + s == s && cur + p == cur;
    } else {
      assert (p + s)[0] == p[0] && (p + s)[1..] == p[1..] + s;
      SplitAtPiece(cur + [p[0]], p[1..], s, c);
      assert cur + [p[0]] + p[1..] == cur + p;
    }
  }

  lemma {:induction false} SplitAtJoin(ps: seq<string>, c: char)
    requires ps != [] && forall i :: 0 <= i < |ps| ==> c !in ps[i]
    ensures SplitAt("", Join(ps, c), c) == ps
  {
    if |ps| == 1 {
      SplitAtPiece("", ps[0], "", c);
      assert ps[0] + "" == ps[0] && "" + ps[0] == ps[0];
    } else {
      var rest := Join(ps[1..], c);
      assert Join(ps, c) == ps[0] + ([c] + rest);
      SplitAtPiece("", ps[0], [c] + rest, c);
      assert "" + ps[0] == ps[0] && ([c] + rest)[1..] == rest;
      SplitAtJoin(ps[1..], c);
    }
  }

  // ---------------------------------------------------------------- the two tokenizers compared

  predicate Plain(s: string) {
    forall i :: 0 <= i < |s| ==> IsBlank(s[i]) ==> s[i] == ' '
  }

  lemma {:induction false} FieldsSkipSeps(s: string)
    ensures FieldRuns("", s) == FieldRuns("", DropSeps(s))
    decreases |s|
  {
    if s != "" && IsSep(s[0]) {
      FieldsSkipSeps(s[1..]);
    }
  }

  lemma {:induction false} RunsAgree(cur: string, s: string)
    requires cur != "" && Plain(s) && (s == "" || !IsSep(s[|s| - 1]))
    ensures SplitRuns(cur, s) == FieldRuns(cur, s)
    decreases |s|
  {
    if s == "" {
    } else if IsSep(s[0]) {
      var rest := DropSeps(s[1..]);
      assert s[1..][|s| - 2] == s[|s| - 1];
      FieldsSkipSeps(s[1..]);
      assert Plain(rest[1..]);
      RunsAgree([rest[0]], rest[1..]);
      assert SplitRuns("", rest) == SplitRuns("" + [rest[0]], rest[1..]);
      assert FieldRuns("", rest) == FieldRuns("" + [rest[0]], rest[1..]);
      assert "" + [rest[0]] == [rest[0]];
    } else {
      RunsAgree(cur + [s[0]], s[1..]);
    }
  }

  // No piece the field tokenizer returns is empty or holds a blank.
  lemma {:induction false} FieldPieces(cur: string, s: string)
    requires forall i :: 0 <= i < |cur| ==> !IsBlank(cur[i])
    ensures forall f :: f in FieldRuns(cur, s) ==> f != "" && forall i :: 0 <= i < |f| ==> !IsBlank(f[i])
    decreases |s|
  {
    if s == "" {
    } else if IsBlank(s[0]) || IsSep(s[0]) {
      FieldPieces("", s[1..]);
    } else {
      FieldPieces(cur + [s[0]], s[1..]);
    }
  }

  lemma {:induction false} DropSepsKeeps(s: string, c: char)
    requires !IsSep(c) && c in s
    ensures c in DropSeps(s)
    decreases |s|
  {
    if IsSep(s[0]) {
      var k :| 0 < k < |s| && s[k] == c;
      assert s[1..][k - 1] == c;
      DropSepsKeeps(s[1..], c);
    }
  }

  // Every non-separator character of the input reaches some piece.
  lemma {:induction false} SplitRunsKeeps(cur: string, s: string, c: char)
    requires !IsSep(c) && (c in cur || c in s)
    ensures exists f :: f in SplitRuns(cur, s) && c in f
    decreases |s|
  {
    if s == "" {
      assert cur in SplitRuns(cur, s);
    } else if IsSep(s[0]) {
      if c in cur {
        assert cur in SplitRuns(cur, s);
      } else {
        var rest := DropSeps(s[1..]);
        var k :| 0 <= k < |s| && s[k] == c;
        assert s[1..][k - 1] == s[k];
        DropSepsKeeps(s[1..], c);
        SplitRunsKeeps("", rest, c);
        var f :| f in SplitRuns("", rest) && c in f;
        assert f in SplitRuns(cur, s);
      }
    } else {
      SplitRunsKeeps(cur + [s[0]], s[1..], c);
    }
  }

  lemma {:induction false} SplitRunsLast(cur: string, s: string)
    requires s != "" && IsSep(s[|s| - 1])
    ensures "" in SplitRuns(cur, s)
    decreases |s|
  {
    if IsSep(s[0]) {
      var rest := DropSeps(s[1..]);
      assert rest != "" ==> rest[|rest| - 1] == s[|s| - 1];
      if rest == "" {
        assert SplitRuns("", rest) == [""];
        assert SplitRuns(cur, s)[1] == "";
      } else {
        SplitRunsLast("", rest);
        assert SplitRuns(cur, s) == [cur] + SplitRuns("", rest);
      }
    } else {
      SplitRunsLast(cur + [s[0]], s[1..]);
    }
  }

  lemma LeadingComma(t: string, s: string)
    requires t != "" && t[0] == ','
    ensures SplitRuns("", t) != FieldRuns("", s)
  {
    FieldPieces("", s);
    assert SplitRuns("", t)[0] == "";
  }

  lemma TrailingComma(t: string, s: string)
    requires t != "" && t[|t| - 1] == ','
    ensures SplitRuns("", t) != FieldRuns("", s)
  {
    FieldPieces("", s);
    SplitRunsLast("", t);
  }

  lemma InnerBlank(t: string, s: string)
    requires !Plain(t)
    ensures SplitRuns("", t) != FieldRuns("", s)
  {
    FieldPieces("", s);
    var i :| 0 <= i < |t| && IsBlank(t[i]) && t[i] != ' ';
    SplitRunsKeeps("", t, t[i]);
    var f :| f in SplitRuns("", t) && t[i] in f;
    var k :| 0 <= k < |f| && f[k] == t[i];
    assert f !in FieldRuns("", s);
  }

  lemma NothingOdd(t: string)
    requires t != "" && Plain(t) && !IsSep(t[0]) && !IsSep(t[|t| - 1])
    ensures SplitRuns("", t) == FieldRuns("", t)
  {
    assert "" + [t[0]] == [t[0]];
    RunsAgree([t[0]], t[1..]);
  }

  // How many characters there are in all pieces, outside separators, and outside blanks besides.
  function Weight(ps: seq<string>): nat {
    if ps == [] then 0 else |ps[0]| + Weight(ps[1..])
  }

  function Solids(s: string, alsoBlanks: bool): nat {
    if s == "" then 0
    else (if IsSep(s[0]) || (alsoBlanks && IsBlank(s[0])) then 0 else 1) + Solids(s[1..], alsoBlanks)
  }

  lemma {:induction false} SolidsDropSeps(s: string)
    ensures Solids(DropSeps(s), false) == Solids(s, false)
    decreases |s|
  {
    if s != "" && IsSep(s[0]) {
      SolidsDropSeps(s[1..]);
    }
  }

  lemma {:induction false} SplitWeight(cur: string, s: string)
    ensures Weight(SplitRuns(cur, s)) == |cur| + Solids(s, false)
    decreases |s|
  {
    if s == "" {
    } else if IsSep(s[0]) {
      var rest := DropSeps(s[1..]);
      SolidsDropSeps(s[1..]);
      SplitWeight("", rest);
      assert SplitRuns(cur, s)[1..] == SplitRuns("", rest);
    } else {
      SplitWeight(cur + [s[0]], s[1..]);
    }
  }

  lemma {:induction false} FieldWeight(cur: string, s: string)
    ensures Weight(FieldRuns(cur, s)) == |cur| + Solids(s, true)
    decreases |s|
  {
    if s == "" {
    } else if IsBlank(s[0]) || IsSep(s[0]) {
      var rest := FieldRuns("", s[1..]);
      FieldWeight("", s[1..]);
      assert [] + rest == rest && ([cur] + rest)[1..] == rest;
    } else {
      FieldWeight(cur + [s[0]], s[1..]);
    }
  }

  lemma {:induction false} SolidsConcat(a: string, b: string)
    ensures Solids(a + b, true) == Solids(a, true) + Solids(b, true)
    decreases |a|
  {
    if a == "" {
      assert a + b == b;
    } else {
      assert (a + b)[1..] == a[1..] + b;
      SolidsConcat(a[1..], b);
    }
  }

  lemma {:induction false} PlainSolids(t: string)
    requires Plain(t)
    ensures Solids(t, true) == Solids(t, false)
    decreases |t|
  {
    if t != "" {
      PlainSolids(t[1..]);
    }
  }

  predicate Blanks(s: string) {
    forall i :: 0 <= i < |s| ==> IsBlank(s[i])
  }

  lemma {:induction false} BlanksWeighNothing(s: string)
    requires forall i :: 0 <= i < |s| ==> IsSpace(s[i])
    ensures Solids(s, true) == 0 <==> Blanks(s)
    decreases |s|
  {
    if s != "" {
      BlanksWeighNothing(s[1..]);
      assert Blanks(s) <==> IsBlank(s[0]) && Blanks(s[1..]) by {
        assert forall i :: 0 < i < |s| ==> s[i] == s[1..][i - 1];
      }
    }
  }

  lemma {:induction false} FieldsOfBlanks(cur: string, s: string)
    requires Blanks(s)
    ensures FieldRuns(cur, s) == if cur == "" then [] else [cur]
    decreases |s|
  {
    if s != "" {
      FieldsOfBlanks("", s[1..]);
    }
  }

  lemma {:induction false} FieldsSkipBlanks(b: string, s: string)
    requires Blanks(b)
    ensures FieldRuns("", b + s) == FieldRuns("", s)
    decreases |b|
  {
    if b == "" {
      assert b + s == s;
    } else {
      assert (b + s)[1..] == b[1..] + s;
      FieldsSkipBlanks(b[1..], s);
    }
  }

  lemma {:induction false} FieldsEndInBlanks(cur: string, s: string, b: string)
    requires Blanks(b)
    ensures FieldRuns(cur, s + b) == FieldRuns(cur, s)
    decreases |s|
  {
    if s == "" {
      assert s + b == b;
      FieldsOfBlanks(cur, b);
    } else {
      assert (s + b)[1..] == s[1..] + b;
      if IsBlank(s[0]) || IsSep(s[0]) {
        FieldsEndInBlanks("", s[1..], b);
      } else {
        FieldsEndInBlanks(cur + [s[0]], s[1..], b);
      }
    }
  }

  // What trimming takes off in front and behind.
  function Front(s: string): string {
    s[..|s| - |TrimLeft(s)|]
  }

  function Behind(s: string): string {
    TrimLeft(s)[|Trim(s)|..]
  }

  lemma TrimmedParts(s: string)
    ensures s == Front(s) + (Trim(s) + Behind(s))
    ensures forall c :: c in Front(s) + Behind(s) ==> IsSpace(c)
  {
    TrimRightOff(TrimLeft(s));
  }

  lemma {:induction false} TrimRightOff(s: string)
    ensures forall i :: |TrimRight(s)| <= i < |s| ==> IsSpace(s[i])
    decreases |s|
  {
    if s != "" && IsSpace(s[|s| - 1]) {
      TrimRightOff(s[..|s| - 1]);
    }
  }

  // With a plain middle, the two agree only if what was trimmed off is ASCII.
  lemma EdgesWeigh(s: string)
    requires Plain(Trim(s)) && Weight(Tokens(s)) == Weight(Fields(s))
    ensures Blanks(Front(s)) && Blanks(Behind(s))
  {
    var t := Trim(s);
    TrimmedParts(s);
    SplitWeight("", t);
    FieldWeight("", s);
    SolidsConcat(Front(s), t + Behind(s));
    SolidsConcat(t, Behind(s));
    PlainSolids(t);
    SpacesWeigh(s, Front(s));
    SpacesWeigh(s, Behind(s));
  }

  lemma SpacesWeigh(s: string, e: string)
    requires forall c :: c in e ==> IsSpace(c)
    ensures Solids(e, true) == 0 <==> Blanks(e)
  {
    BlanksWeighNothing(e);
  }

  lemma EdgesSkipped(s: string)
    requires Blanks(Front(s)) && Blanks(Behind(s))
    ensures Fields(s) == FieldRuns("", Trim(s))
  {
    TrimmedParts(s);
    FieldsSkipBlanks(Front(s), Trim(s) + Behind(s));
    FieldsEndInBlanks("", Trim(s), Behind(s));
  }

  // The JavaScript and the C++ tokenizer return the same pieces exactly when trimming takes off ASCII
  // blanks only, and the trimmed line holds no ASCII blank other than a space and neither starts nor ends
  // with a comma. A leading comma, say, is an extra empty piece in JavaScript alone, which `Number` then
  // reads as 0; and C++ keeps a blank beyond ASCII that JavaScript trims.
  lemma TokenizersAgree(s: string)
    ensures Tokens(s) == Fields(s) <==>
      && Blanks(Front(s)) && Blanks(Behind(s))
      && var t := Trim(s); Plain(t) && (t == "" || (t[0] != ',' && t[|t| - 1] != ','))
  {
    var t := Trim(s);
    if t != "" && t[0] == ',' {
      LeadingComma(t, s);
    } else if t != "" && t[|t| - 1] == ',' {
      TrailingComma(t, s);
    } else if !Plain(t) {
      InnerBlank(t, s);
    } else if Blanks(Front(s)) && Blanks(Behind(s)) {
      EdgesSkipped(s);
      if t != "" {
        NothingOdd(t);
      }
    } else if Tokens(s) == Fields(s) {
      EdgesWeigh(s);
    }
  }

  // On a line that needs no trimming they agree under the other conditions alone.
  lemma TidyAgree(s: string)
    requires Tidy(s) && Plain(s) && (s == "" || (s[0] != ',' && s[|s| - 1] != ','))
    ensures Tokens(s) == Fields(s)
  {
    TrimTidy(s);
    TokenizersAgree(s);
  }
}
