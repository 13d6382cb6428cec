/**
 Integer arrays, matrices and linked lists on the wire: the printers, the JavaScript parsers,
 and the C++ and Java matrix parsers, which cut a line differently.
*/
module ArrayCodec {
  import opened Text

  type Row = seq<Value>
  type Matrix = seq<Row>

  function TextsOf(v: Row): (ws: seq<string>)
    ensures |ws| == |v| && forall i :: 0 <= i < |v| ==> ws[i] == ToText(v[i])
  {
    seq(|v|, i requires 0 <= i < |v| => ToText(v[i]))
  }

  function NumbersOf(ws: seq<string>): (v: Row)
    ensures |v| == |ws| && forall i :: 0 <= i < |v| ==> v[i] == Number(ws[i])
  {
    seq(|ws|, i requires 0 <= i < |ws| => Number(ws[i]))
  }

  function PrintInts(v: Row): string {
    Join(TextsOf(v), ' ')
  }

  function ParseInts(s: string): Row {
    NumbersOf(Tokens(s))
  }

  // How the Java and C++ harnesses read an array: same numbers, cut by `Fields`.
  function FieldInts(s: string): Row {
    NumbersOf(Fields(s))
  }

  function PrintRows(m: Matrix): (ps: seq<string>)
    ensures |ps| == |m| && forall i :: 0 <= i < |m| ==> ps[i] == PrintInts(m[i])
  {
    seq(|m|, i requires 0 <= i < |m| => PrintInts(m[i]))
  }

  function PrintMat(m: Matrix): string {
    Join(PrintRows(m), ';')
  }

  function ParseRows(ps: seq<string>): (m: Matrix)
    ensures |m| == |ps| && forall i :: 0 <= i < |m| ==> m[i] == ParseInts(ps[i])
  {
    seq(|ps|, i requires 0 <= i < |ps| => ParseInts(ps[i]))
  }

  function FieldRows(ps: seq<string>): (m: Matrix)
    ensures |m| == |ps| && forall i :: 0 <= i < |m| ==> m[i] == FieldInts(ps[i])
  {
    seq(|ps|, i requires 0 <= i < |ps| => FieldInts(ps[i]))
  }

  function ParseMat(s: string): Matrix {
    var t := Trim(s);
    if t == "" then [] else ParseRows(SplitAt("", t, ';'))
  }

  // What the C++ harness trims: vertical tab and form feed are not among it.
  predicate CppBlank(s: string) {
    forall i :: 0 <= i < |s| ==> s[i] == ' ' || s[i] == '\t' || s[i] == '\r' || s[i] == '\n'
  }

  // C++ tests the trimmed line for emptiness but cuts the line as it stands.
  function ParseMatCpp(s: string): Matrix {
    if CppBlank(s) then [] else FieldRows(SplitAt("", s, ';'))
  }

  // `String.split` in Java drops the empty pieces at the end.
  function DropEmptyTail<T(==)>(ps: seq<seq<T>>): (r: seq<seq<T>>)
    ensures r == [] || r[|r| - 1] != []
    ensures r <= ps && forall i :: |r| <= i < |ps| ==> ps[i] == []
  {
    if ps != [] && ps[|ps| - 1] == [] then DropEmptyTail(ps[..|ps| - 1]) else ps
  }

  function ParseMatJava(s: string): Matrix {
    var t := Trim(s);
    if t == "" then [] else FieldRows(DropEmptyTail(SplitAt("", t, ';')))
  }

  // ---------------------------------------------------------------- arrays

  lemma PrintedWords(v: Row)
    ensures forall i :: 0 <= i < |v| ==> IsWord(TextsOf(v)[i])
  {
    forall i | 0 <= i < |v|
      ensures IsWord(TextsOf(v)[i])
    {
      NumberRoundTrip(v[i]);
    }
  }

  // A printed array is empty only if the array is, and trimming and cutting rows leave it whole.
  lemma PrintedLine(v: Row)
    ensures PrintInts(v) == "" <==> v == []
    ensures ';' !in PrintInts(v)
    ensures Tidy(PrintInts(v))
  {
    PrintedWords(v);
    JoinWords(TextsOf(v));
  }

  // The numbers stand in the text one by one, a single space between any two.
  lemma PrintedPieces(v: Row)
    requires v != []
    ensures SplitAt("", PrintInts(v), ' ') == TextsOf(v)
  {
    PrintedWords(v);
    forall i | 0 <= i < |v|
      ensures ' ' !in TextsOf(v)[i]
    {
      assert IsWord(TextsOf(v)[i]);
    }
    SplitAtJoin(TextsOf(v), ' ');
  }

  lemma PrintedTokens(v: Row)
    ensures Tokens(PrintInts(v)) == TextsOf(v)
  {
    PrintedWords(v);
    TokensOfJoin(TextsOf(v));
  }

  lemma PrintedFields(v: Row)
    ensures Fields(PrintInts(v)) == Tokens(PrintInts(v))
  {
    var t := PrintInts(v);
    PrintedWords(v);
    JoinWords(TextsOf(v));
    TidyAgree(t);
  }

  lemma NumbersOfTexts(v: Row)
    ensures NumbersOf(TextsOf(v)) == v
  {
    forall i | 0 <= i < |v| ensures Number(TextsOf(v)[i]) == v[i] {
      NumberRoundTrip(v[i]);
    }
  }

  // Every array survives print-then-parse, with either tokenizer.
  lemma IntsRoundTrip(v: Row)
    ensures ParseInts(PrintInts(v)) == v
    ensures FieldInts(PrintInts(v)) == v
  {
    PrintedTokens(v);
    PrintedFields(v);
    NumbersOfTexts(v);
  }

  // ---------------------------------------------------------------- matrices

  lemma {:induction false} JoinRows(ps: seq<string>)
    requires forall i :: 0 <= i < |ps| ==> Tidy(ps[i])
    ensures Join(ps, ';') == "" <==> ps == [] || ps == [""]
    ensures Tidy(Join(ps, ';'))
  {
    if |ps| > 1 {
      JoinRows(ps[1..]);
      var t, rest := Join(ps, ';'), Join(ps[1..], ';');
      assert t == ps[0] + ";" + rest;
      assert t[0] == if ps[0] == "" then ';' else ps[0][0];
      assert t[|t| - 1] == if rest == "" then ';' else rest[|rest| - 1];
    }
  }

  lemma PrintedRows(m: Matrix)
    ensures forall i :: 0 <= i < |m| ==> ';' !in PrintRows(m)[i] && Tidy(PrintRows(m)[i])
    ensures PrintRows(m) == [""] <==> m == [[]]
  {
    forall i | 0 <= i < |m|
      ensures ';' !in PrintRows(m)[i] && Tidy(PrintRows(m)[i])
      ensures PrintRows(m)[i] == "" <==> m[i] == []
    {
      PrintedLine(m[i]);
    }
  }

  lemma RowsRoundTrip(m: Matrix)
    ensures FieldRows(PrintRows(m)) == m == ParseRows(PrintRows(m))
  {
    forall i | 0 <= i < |m| ensures ParseInts(PrintRows(m)[i]) == m[i] == FieldInts(PrintRows(m)[i]) {
      IntsRoundTrip(m[i]);
    }
  }

  lemma PrintedMat(m: Matrix)
    ensures PrintMat(m) == "" <==> m == [] || m == [[]]
    ensures PrintMat(m) != "" ==> !CppBlank(PrintMat(m))
    ensures Trim(PrintMat(m)) == PrintMat(m)
    ensures m != [] ==> SplitAt("", PrintMat(m), ';') == PrintRows(m)
  {
    PrintedRows(m);
    JoinRows(PrintRows(m));
    TrimTidy(PrintMat(m));
    if m != [] {
      SplitAtJoin(PrintRows(m), ';');
    }
  }

  lemma ParsedMat(m: Matrix)
    requires m != [] && m != [[]]
    ensures ParseMat(PrintMat(m)) == m && ParseMatCpp(PrintMat(m)) == m
  {
    PrintedMat(m);
    RowsRoundTrip(m);
  }

  lemma EmptyLine(s: string)
    requires |s| == 0
    ensures ParseMat(s) == ParseMatCpp(s) == ParseMatJava(s) == []
  {
  }

  // What prints as the empty line comes back as no rows, whoever reads it.
  lemma LostMat(m: Matrix)
    requires |m| == 0 || (|m| == 1 && m[0] == [])
    ensures ParseMat(PrintMat(m)) == ParseMatCpp(PrintMat(m)) == ParseMatJava(PrintMat(m)) == []
    ensures DropEmptyTail(m) == []
  {
    assert m == [] || m == [[]];
    PrintedMat(m);
    EmptyLine(PrintMat(m));
    DropLone(m);
  }

  lemma DropLone(m: Matrix)
    requires |m| == 0 || (|m| == 1 && m[0] == [])
    ensures DropEmptyTail(m) == []
  {
  }

  // Print-then-parse loses exactly one matrix: the one holding a single empty row, which prints
  // as the empty line and comes back with no rows at all.
  lemma MatRoundTrip(m: Matrix)
    ensures ParseMat(PrintMat(m)) == m <==> m != [[]]
    ensures ParseMatCpp(PrintMat(m)) == ParseMat(PrintMat(m))
  {
    if m == [] || m == [[]] {
      LostMat(m);
    } else {
      ParsedMat(m);
    }
  }

  lemma {:induction false} DropTailRows(m: Matrix)
    ensures DropEmptyTail(PrintRows(m)) == PrintRows(DropEmptyTail(m))
    decreases |m|
  {
    if m != [] {
      var k := |m| - 1;
      PrintedLine(m[k]);
      PrintedInit(m);
      if m[k] == [] {
        DropTailRows(m[..k]);
        TailDropped(PrintRows(m));
        TailDropped(m);
      }
    }
  }

  lemma PrintedInit(m: Matrix)
    requires m != []
    ensures PrintRows(m)[..|m| - 1] == PrintRows(m[..|m| - 1])
  {
  }

  lemma TailDropped<T>(ps: seq<seq<T>>)
    requires ps != [] && ps[|ps| - 1] == []
    ensures DropEmptyTail(ps) == DropEmptyTail(ps[..|ps| - 1])
  {
  }

  // What the Java harness reads back is the matrix without its trailing empty rows, so the three
  // parsers agree on a printed matrix exactly when it has no such row (or is the lone `[[]]`,
  // which all three read as the empty matrix).
  lemma JavaMatrix(m: Matrix)
    ensures ParseMatJava(PrintMat(m)) == DropEmptyTail(m)
    ensures ParseMatJava(PrintMat(m)) == ParseMat(PrintMat(m)) <==>
            m == [] || m == [[]] || m[|m| - 1] != []
  {
    if m == [] || m == [[]] {
      LostMat(m);
    } else {
      JavaRows(m);
      ParsedMat(m);
      NoEmptyTail(m);
    }
  }

  lemma NoEmptyTail(m: Matrix)
    requires m != []
    ensures DropEmptyTail(m) == m <==> m[|m| - 1] != []
  {
  }

  lemma JavaRows(m: Matrix)
    requires m != [] && m != [[]]
    ensures ParseMatJava(PrintMat(m)) == DropEmptyTail(m)
  {
    PrintedMat(m);
    DropTailRows(m);
    RowsRoundTrip(DropEmptyTail(m));
  }

  // The C++ `__split` loop for a separator other than the space.
  method SplitLoop(s: string, sep: char) returns (out: seq<string>)
    ensures out == SplitAt("", s, sep)
  {
    out := [];
    var cur := "";
    for i := 0 to |s|
      invariant out + SplitAt(cur, s[i..], sep) == SplitAt("", s, sep)
    {
      assert s[i..][0] == s[i] && s[i..][1..] == s[i + 1..];
      if s[i] == sep {
        out := out + [cur];
        cur := "";
      } else {
        cur := cur + [s[i]];
      }
    }
    out := out + [cur];
  }

  // ---------------------------------------------------------------- linked lists

  class ListNode {
    var val: Value
    var next: ListNode?
    constructor (val: Value, next: ListNode?)
      ensures this.val == val && this.next == next
    {
      this.val, this.next := val, next;
    }
  }

  // From `h` the chain spells out `v` and then ends, all of it inside `fp`.
  ghost predicate Spells(h: ListNode?, v: Row, fp: set<ListNode>)
    reads fp
    decreases |v|
  {
    if v == [] then h == null
    else h != null && h in fp && h.val == v[0] && Spells(h.next, v[1..], fp)
  }

  lemma {:induction false} SpellsMore(h: ListNode?, v: Row, fp: set<ListNode>, n: ListNode)
    requires Spells(h, v, fp)
    ensures Spells(h, v, fp + {n})
    decreases |v|
  {
    if v != [] {
      SpellsMore(h.next, v[1..], fp, n);
    }
  }

  // `__list`: built back to front.
  method ParseList(s: string) returns (head: ListNode?, ghost fp: set<ListNode>)
    ensures fresh(fp) && Spells(head, ParseInts(s), fp)
  {
    var v := ParseInts(s);
    head, fp := null, {};
    var i := |v| - 1;
    while i >= 0
      invariant -1 <= i < |v|
      invariant fresh(fp) && Spells(head, v[i + 1..], fp)
    {
      var n := new ListNode(v[i], head);
      SpellsMore(head, v[i + 1..], fp, n);
      assert v[i..][1..] == v[i + 1..];
      head, fp := n, fp + {n};
      i := i - 1;
    }
    assert v[0..] == v;
  }

  // `__fList`: what it prints parses back to the very values of the chain.
  method PrintList(head: ListNode?, ghost v: Row, ghost fp: set<ListNode>) returns (text: string)
    requires Spells(head, v, fp)
    ensures text == PrintInts(v)
    ensures ParseInts(text) == v
  {
    var h := head;
    var out: Row := [];
    while h != null
      invariant |out| <= |v| && out == v[..|out|]
      invariant Spells(h, v[|out|..], fp)
      decreases |v| - |out|
    {
      out := out + [h.val];
      h := h.next;
    }
    assert out == v;
    IntsRoundTrip(v);
    text := PrintInts(out);
  }
}
