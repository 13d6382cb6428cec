/**
 Binary trees on the wire: level order, "null" for an absent child, trailing nulls trimmed.
 The printer and the parser are queue loops over linked nodes; each is proved against a
 function on values, and the two functions are proved to undo each other for every tree.
*/
module TreeCodec {
  import opened Text

  datatype Tree = Nil | Node(val: Value, left: Tree, right: Tree)

  function Size(t: Tree): nat {
    match t
    case Nil => 1
    case Node(_, l, r) => 1 + Size(l) + Size(r)
  }

  function Sizes(q: seq<Tree>): nat {
    if q == [] then 0 else Size(q[0]) + Sizes(q[1..])
  }

  lemma {:induction false} SizesConcat(a: seq<Tree>, b: seq<Tree>)
    ensures Sizes(a + b) == Sizes(a) + Sizes(b)
  {
    if a == [] {
      assert a + b == b;
    } else {
      assert (a + b)[1..] == a[1..] + b;
      SizesConcat(a[1..], b);
    }
  }

  lemma SizesOne(t: Tree)
    ensures Sizes([t]) == Size(t)
  {
    assert [t][1..] == [];
  }

  lemma SizesShift(q: seq<Tree>, kids: seq<Tree>)
    requires q != []
    ensures Sizes(q[1..] + kids) + Size(q[0]) == Sizes(q) + Sizes(kids)
  {
    SizesConcat(q[1..], kids);
  }

  // ---------------------------------------------------------------- printing

  function NodeText(t: Tree): string {
    if t.Nil? then "null" else ToText(t.val)
  }

  function Children(t: Tree): seq<Tree> {
    if t.Nil? then [] else [t.left, t.right]
  }

  lemma ChildrenSmaller(t: Tree)
    ensures Sizes(Children(t)) == Size(t) - 1
  {
    if t.Node? {
      SizesConcat([t.left], [t.right]);
      SizesOne(t.left);
      SizesOne(t.right);
    }
  }

  // What the printer's queue loop emits when the queue holds `q`.
  function LevelOrder(q: seq<Tree>): seq<string>
    decreases Sizes(q)
  {
    if q == [] then []
    else
      SizesShift(q, Children(q[0]));
      ChildrenSmaller(q[0]);
      [NodeText(q[0])] + LevelOrder(q[1..] + Children(q[0]))
  }

  function TrimNulls(out: seq<string>): seq<string> {
    if out != [] && out[|out| - 1] == "null" then TrimNulls(out[..|out| - 1]) else out
  }

  function TreeWords(t: Tree): seq<string> {
    if t.Nil? then [] else TrimNulls(LevelOrder([t]))
  }

  function PrintTree(t: Tree): string {
    Join(TreeWords(t), ' ')
  }

  // ---------------------------------------------------------------- parsing

  function From(tok: seq<string>, i: nat): seq<string> {
    if i <= |tok| then tok[i..] else []
  }

  // The value of the child named by token `i`, or nothing when it is absent.
  function Child(tok: seq<string>, i: nat): seq<Value> {
    if i < |tok| && tok[i] != "null" then [Number(tok[i])] else []
  }

  function Leaves(vals: seq<Value>): (ts: seq<Tree>)
    ensures |ts| == |vals| && forall j :: 0 <= j < |ts| ==> ts[j] == Node(vals[j], Nil, Nil)
  {
    seq(|vals|, j requires 0 <= j < |vals| => Node(vals[j], Nil, Nil))
  }

  // The finished subtrees of the nodes waiting in the parser's queue, whose values are `vals`,
  // when the tokens still to be read are `tok`.
  function Grow(vals: seq<Value>, tok: seq<string>): (ts: seq<Tree>)
    ensures |ts| == |vals|
    decreases |tok|
  {
    if vals == [] then []
    else if tok == [] then Leaves(vals)
    else
      var l, r := Child(tok, 0), Child(tok, 1);
      WithParent(vals[0], l, r, Grow(vals[1..] + l + r, From(tok, 2)), |vals| - 1)
  }

  // Of the finished trees `ts` the first `k` belong to nodes already waiting; those after them
  // are the children of a node holding `v`, which goes in front.
  function WithParent(v: Value, l: seq<Value>, r: seq<Value>, ts: seq<Tree>, k: nat): (r': seq<Tree>)
    requires |ts| == k + |l| + |r|
    ensures |r'| == k + 1
  {
    [Node(v, if l == [] then Nil else ts[k], if r == [] then Nil else ts[k + |l|])] + ts[..k]
  }

  function ParseTokens(tok: seq<string>): Tree {
    if tok == [] then Nil else Grow([Number(tok[0])], tok[1..])[0]
  }

  function ParseTree(s: string): Tree {
    ParseTokens(Tokens(s))
  }

  // ---------------------------------------------------------------- round trip

  function Roots(q: seq<Tree>): (vals: seq<Value>)
    requires forall i :: 0 <= i < |q| ==> q[i].Node?
    ensures |vals| == |q| && forall i :: 0 <= i < |q| ==> vals[i] == q[i].val
  {
    seq(|q|, i requires 0 <= i < |q| => q[i].val)
  }

  lemma RootsConcat(a: seq<Tree>, b: seq<Tree>)
    requires (forall i :: 0 <= i < |a| ==> a[i].Node?) && (forall i :: 0 <= i < |b| ==> b[i].Node?)
    ensures Roots(a + b) == Roots(a) + Roots(b)
  {
  }

  function Kids(q: seq<Tree>): seq<Tree> {
    if q == [] then [] else Children(q[0]) + Kids(q[1..])
  }

  lemma {:induction false} KidsConcat(a: seq<Tree>, b: seq<Tree>)
    ensures Kids(a + b) == Kids(a) + Kids(b)
  {
    if a == [] {
      assert a + b == b;
    } else {
      assert (a + b)[1..] == a[1..] + b;
      KidsConcat(a[1..], b);
    }
  }

  function Present(t: Tree): seq<Tree> {
    if t.Nil? then [] else [t]
  }

  lemma KidsOfPresent(t: Tree)
    ensures Kids(Present(t)) == Children(t)
  {
    if t.Node? {
      assert [t][1..] == [];
    }
  }

  lemma LevelOrderStep(t: Tree, q: seq<Tree>)
    ensures LevelOrder([t] + q) == [NodeText(t)] + LevelOrder(q + Children(t))
  {
    assert ([t] + q)[1..] == q;
  }

  lemma KidsOfNext(q: seq<Tree>)
    requires q != [] && q[0].Node?
    ensures Kids(q) == [q[0].left, q[0].right] + Kids(q[1..])
    ensures Kids(q[1..] + Present(q[0].left) + Present(q[0].right))
            == Kids(q[1..]) + Children(q[0].left) + Children(q[0].right)
  {
    KidsConcat(q[1..] + Present(q[0].left), Present(q[0].right));
    KidsConcat(q[1..], Present(q[0].left));
    KidsOfPresent(q[0].left);
    KidsOfPresent(q[0].right);
  }

  // The printer's next two tokens are the two children of the parser's next node, and after them
  // both loops stand on corresponding queues again.
  lemma TwoTokens(l: Tree, r: Tree, k: seq<Tree>)
    ensures LevelOrder([l, r] + k)
            == [NodeText(l), NodeText(r)] + LevelOrder(k + Children(l) + Children(r))
  {
    Regroup(l, r, k, Children(l));
    LevelOrderStep(l, [r] + k);
    LevelOrderStep(r, k + Children(l));
    Regroup(NodeText(l), NodeText(r), LevelOrder(k + Children(l) + Children(r)), []);
  }

  lemma Regroup<T>(a: T, b: T, s: seq<T>, t: seq<T>)
    ensures [a, b] + s == [a] + ([b] + s)
    ensures ([b] + s) + t == [b] + (s + t)
  {
  }

  // The heart of the round trip: parsing what the printer emits for the children of a queue of
  // nodes gives back exactly that queue.
  lemma {:induction false} GrowForest(q: seq<Tree>)
    requires forall i :: 0 <= i < |q| ==> q[i].Node?
    ensures Grow(Roots(q), LevelOrder(Kids(q))) == q
    decreases Sizes(q)
  {
    if q != [] {
      var l, r := q[0].left, q[0].right;
      var next := q[1..] + Present(l) + Present(r);
      KidsOfNext(q);
      TwoTokens(l, r, Kids(q[1..]));
      SmallerNext(q);
      GrowForest(next);
      GrowStep(q, LevelOrder(Kids(q)), LevelOrder(Kids(next)));
    }
  }

  lemma GrowStep(q: seq<Tree>, tok: seq<string>, more: seq<string>)
    requires q != [] && forall i :: 0 <= i < |q| ==> q[i].Node?
    requires tok == [NodeText(q[0].left), NodeText(q[0].right)] + more
    requires var next := q[1..] + Present(q[0].left) + Present(q[0].right); Grow(Roots(next), more) == next
    ensures Grow(Roots(q), tok) == q
  {
    var l, r := q[0].left, q[0].right;
    var next := q[1..] + Present(l) + Present(r);
    assert From(tok, 2) == more;
    ChildOfText(l, tok, 0);
    ChildOfText(r, tok, 1);
    RootsConcat(q[1..] + Present(l), Present(r));
    RootsConcat(q[1..], Present(l));
    assert Roots(q)[1..] == Roots(q[1..]);
    GrowUnfold(Roots(q), tok);
    Reattached(q, next);
  }

  lemma Reattached(q: seq<Tree>, next: seq<Tree>)
    requires q != [] && forall i :: 0 <= i < |q| ==> q[i].Node?
    requires next == q[1..] + Present(q[0].left) + Present(q[0].right)
    ensures var l, r := Roots(Present(q[0].left)), Roots(Present(q[0].right));
      WithParent(q[0].val, l, r, next, |q| - 1) == q
  {
    assert q == [q[0]] + next[..|q| - 1];
  }

  lemma ChildOfText(t: Tree, tok: seq<string>, i: nat)
    requires i < |tok| && tok[i] == NodeText(t)
    ensures Child(tok, i) == Roots(Present(t))
  {
    if t.Node? {
      NumberRoundTrip(t.val);
    }
  }

  lemma SmallerNext(q: seq<Tree>)
    requires q != [] && q[0].Node?
    ensures Sizes(q[1..] + Present(q[0].left) + Present(q[0].right)) < Sizes(q)
  {
    SizesConcat(q[1..] + Present(q[0].left), Present(q[0].right));
    SizesConcat(q[1..], Present(q[0].left));
    SizesOne(q[0].left);
    SizesOne(q[0].right);
  }

  lemma {:induction false} GrowIgnoresNull(vals: seq<Value>, tok: seq<string>)
    ensures Grow(vals, tok + ["null"]) == Grow(vals, tok)
    decreases |tok|
  {
    var more := tok + ["null"];
    if vals != [] {
      assert Child(more, 0) == Child(tok, 0) && Child(more, 1) == Child(tok, 1);
      if |tok| >= 2 {
        assert From(more, 2) == From(tok, 2) + ["null"];
        GrowIgnoresNull(vals[1..] + Child(tok, 0) + Child(tok, 1), From(tok, 2));
      } else if tok == [] {
        assert From(more, 2) == [];
        assert vals[1..] + [] + [] == vals[1..];
        assert [Node(vals[0], Nil, Nil)] + Leaves(vals[1..])[..|vals| - 1] == Leaves(vals);
      } else {
        assert From(more, 2) == [] == From(tok, 2);
      }
    }
  }

  lemma {:induction false} GrowTrimmed(vals: seq<Value>, tok: seq<string>)
    ensures Grow(vals, TrimNulls(tok)) == Grow(vals, tok)
    decreases |tok|
  {
    if tok != [] && tok[|tok| - 1] == "null" {
      var init := tok[..|tok| - 1];
      assert tok == init + ["null"];
      GrowIgnoresNull(vals, init);
      GrowTrimmed(vals, init);
    }
  }

  lemma {:induction false} TrimKeepsHead(w: string, out: seq<string>)
    requires w != "null"
    ensures TrimNulls([w] + out) == [w] + TrimNulls(out)
    decreases |out|
  {
    if out != [] && out[|out| - 1] == "null" {
      var init := out[..|out| - 1];
      assert ([w] + out)[..|out|] == [w] + init;
      TrimKeepsHead(w, init);
    }
  }

  lemma {:induction false} LevelOrderWords(q: seq<Tree>)
    ensures forall i :: 0 <= i < |LevelOrder(q)| ==> IsWord(LevelOrder(q)[i])
    decreases Sizes(q)
  {
    if q != [] {
      SizesShift(q, Children(q[0]));
      ChildrenSmaller(q[0]);
      LevelOrderWords(q[1..] + Children(q[0]));
      if q[0].Node? { NumberRoundTrip(q[0].val); }
    }
  }

  lemma {:induction false} TrimNullsPrefix(out: seq<string>)
    ensures TrimNulls(out) <= out
    ensures TrimNulls(out) == [] || TrimNulls(out)[|TrimNulls(out)| - 1] != "null"
    ensures forall i :: |TrimNulls(out)| <= i < |out| ==> out[i] == "null"
  {
    if out != [] && out[|out| - 1] == "null" {
      TrimNullsPrefix(out[..|out| - 1]);
    }
  }

  lemma TreeTokens(t: Tree)
    ensures Tokens(PrintTree(t)) == TreeWords(t) == Fields(PrintTree(t))
  {
    if t.Node? {
      LevelOrderWords([t]);
      TrimNullsPrefix(LevelOrder([t]));
    }
    JoinWords(TreeWords(t));
    TokensOfJoin(TreeWords(t));
    TidyAgree(PrintTree(t));
  }

  // A tree is printed as its level order, one word at a time with a single space between, without the
  // `null`s at the end and with nothing else missing.
  lemma PrintedTrimmed(t: Tree)
    requires t.Node?
    ensures var ws, all := TreeWords(t), LevelOrder([t]);
      && ws != [] && ws[|ws| - 1] != "null"
      && ws <= all && (forall i :: |ws| <= i < |all| ==> all[i] == "null")
      && SplitAt("", PrintTree(t), ' ') == ws
  {
    var ws := TreeWords(t);
    LevelOrderWords([t]);
    TrimNullsPrefix(LevelOrder([t]));
    TreeWordsOfNode(t);
    forall i | 0 <= i < |ws|
      ensures ' ' !in ws[i]
    {
      assert ws[i] == LevelOrder([t])[i] && IsWord(ws[i]);
    }
    SplitAtJoin(ws, ' ');
  }

  lemma TreeWordsOfNode(t: Tree)
    requires t.Node?
    ensures TreeWords(t) == [NodeText(t)] + TrimNulls(LevelOrder(Children(t)))
  {
    NumberRoundTrip(t.val);
    LevelOrderStep(t, []);
    assert [t] + [] == [t] && [] + Children(t) == Children(t);
    TrimKeepsHead(NodeText(t), LevelOrder(Children(t)));
  }

  lemma ParseWords(t: Tree)
    ensures ParseTokens(TreeWords(t)) == t
  {
    if t.Node? {
      TreeWordsOfNode(t);
      NumberRoundTrip(t.val);
      GrowTrimmed([t.val], LevelOrder(Children(t)));
      GrowSingle(t);
    }
  }

  lemma GrowSingle(t: Tree)
    requires t.Node?
    ensures Grow([t.val], LevelOrder(Children(t))) == [t]
  {
    GrowForest([t]);
    KidsOfPresent(t);
    assert Roots([t]) == [t.val];
  }

  // For every tree: reading the printed line gives back that tree, whichever tokenizer cuts it.
  lemma TreeRoundTrip(t: Tree)
    ensures ParseTree(PrintTree(t)) == t
    ensures ParseTokens(Fields(PrintTree(t))) == t
  {
    TreeTokens(t);
    ParseWords(t);
  }

  // Hence no two trees print the same line.
  lemma PrintTreeInjective(a: Tree, b: Tree)
    requires PrintTree(a) == PrintTree(b)
    ensures a == b
  {
    TreeRoundTrip(a);
    TreeRoundTrip(b);
  }

  // ---------------------------------------------------------------- linked nodes

  class TreeNode {
    var val: Value
    var left: TreeNode?
    var right: TreeNode?
    constructor (val: Value)
      ensures this.val == val && left == null && right == null
    {
      this.val, left, right := val, null, null;
    }
  }

  // The nodes reachable from `n`, all inside `fp`, spell out the tree `t`.
  ghost predicate Shows(n: TreeNode?, t: Tree, fp: set<TreeNode>)
    reads fp
    decreases t
  {
    match t
    case Nil => n == null
    case Node(v, l, r) =>
      n != null && n in fp && n.val == v && Shows(n.left, l, fp) && Shows(n.right, r, fp)
  }

  lemma Emit(out: seq<string>, q: seq<Tree>)
    requires q != []
    ensures (out + [NodeText(q[0])]) + LevelOrder(q[1..] + Children(q[0])) == out + LevelOrder(q)
    ensures Sizes(q[1..] + Children(q[0])) < Sizes(q)
  {
    SizesShift(q, Children(q[0]));
    ChildrenSmaller(q[0]);
  }

  // `__fTree`: the queue loop, then the loop that pops trailing nulls.
  method PrintNodes(root: TreeNode?, ghost t: Tree, ghost fp: set<TreeNode>) returns (text: string)
    requires Shows(root, t, fp)
    ensures text == PrintTree(t)
    ensures ParseTree(text) == t
  {
    TreeRoundTrip(t);
    if root == null {
      return "";
    }
    var out := Flatten(root, t, fp);
    while out != [] && out[|out| - 1] == "null"
      invariant TrimNulls(out) == TreeWords(t)
      decreases |out|
    {
      out := out[..|out| - 1];
    }
    text := Join(out, ' ');
  }

  method Flatten(root: TreeNode, ghost t: Tree, ghost fp: set<TreeNode>) returns (out: seq<string>)
    requires Shows(root, t, fp)
    ensures out == LevelOrder([t])
  {
    out := [];
    var q: seq<TreeNode?> := [root];
    ghost var qt := [t];
    while q != []
      invariant |q| == |qt| && forall i :: 0 <= i < |q| ==> Shows(q[i], qt[i], fp)
      invariant out + LevelOrder(qt) == LevelOrder([t])
      decreases Sizes(qt)
    {
      var n := q[0];
      assert Shows(n, qt[0], fp);
      Emit(out, qt);
      qt := qt[1..] + Children(qt[0]);
      if n == null {
        out, q := out + ["null"], q[1..];
      } else {
        out, q := out + [ToText(n.val)], q[1..] + [n.left, n.right];
      }
    }
  }

  // A snapshot of the parser's nodes, so that the shape argument needs no heap.
  datatype Cell = Cell(val: Value, left: TreeNode?, right: TreeNode?)

  // `n` will show `t` once every node of `pend` has been completed to its tree there.
  ghost predicate Denotes(h: map<TreeNode, Cell>, n: TreeNode?, t: Tree, pend: map<TreeNode, Tree>)
    decreases t
  {
    if n == null then t == Nil
    else if n in pend then t == pend[n]
    else n in h && t.Node? && t.val == h[n].val
         && Denotes(h, h[n].left, t.left, pend) && Denotes(h, h[n].right, t.right, pend)
  }

  // Completing one pending node, by new pending nodes that no older node points to, keeps what
  // every other node denotes.
  lemma {:induction false} Complete(h: map<TreeNode, Cell>, h': map<TreeNode, Cell>, node: TreeNode,
                                    pend: map<TreeNode, Tree>, pend': map<TreeNode, Tree>,
                                    n: TreeNode?, t: Tree)
    requires Denotes(h, n, t, pend)
    requires node in pend && Denotes(h', node, pend[node], pend')
    requires forall x :: x in h && x != node ==> x in h' && h'[x] == h[x]
    requires forall x :: x in pend && x != node ==> x in pend' && pend'[x] == pend[x]
    requires forall x :: x in pend' && x in h ==> x in pend
    ensures Denotes(h', n, t, pend')
    decreases t
  {
    if n != null && n !in pend {
      Complete(h, h', node, pend, pend', h[n].left, t.left);
      Complete(h, h', node, pend, pend', h[n].right, t.right);
    }
  }

  lemma {:induction false} Settle(h: map<TreeNode, Cell>, pend: map<TreeNode, Tree>, n: TreeNode?, t: Tree)
    requires Denotes(h, n, t, pend)
    requires forall x :: x in pend ==> Denotes(h, x, pend[x], map[])
    ensures Denotes(h, n, t, map[])
    decreases t
  {
    if n != null && n !in pend {
      Settle(h, pend, h[n].left, t.left);
      Settle(h, pend, h[n].right, t.right);
    }
  }

  ghost predicate Mirrors(h: map<TreeNode, Cell>)
    reads h.Keys
  {
    forall x :: x in h ==> x.val == h[x].val && x.left == h[x].left && x.right == h[x].right
  }

  lemma {:induction false} DenotesShows(h: map<TreeNode, Cell>, n: TreeNode?, t: Tree)
    requires Mirrors(h) && Denotes(h, n, t, map[])
    ensures Shows(n, t, h.Keys)
    decreases t
  {
    if n != null {
      DenotesShows(h, n.left, t.left);
      DenotesShows(h, n.right, t.right);
    }
  }

  // The queue of half-built nodes: distinct, childless so far, and promised the trees `ts`.
  ghost predicate Waiting(h: map<TreeNode, Cell>, q: seq<TreeNode>, vals: seq<Value>,
                          ts: seq<Tree>, pend: map<TreeNode, Tree>)
  {
    && |q| == |vals| == |ts|
    && (forall i, j :: 0 <= i < j < |q| ==> q[i] != q[j])
    && (forall j :: 0 <= j < |q| ==> q[j] in h && h[q[j]] == Cell(vals[j], null, null))
    && (forall j :: 0 <= j < |q| ==> q[j] in pend && pend[q[j]] == ts[j])
    && (forall x :: x in pend ==> x in q)
  }

  ghost function One(n: TreeNode?): seq<TreeNode> {
    if n == null then [] else [n]
  }

  ghost function SetCell(h: map<TreeNode, Cell>, n: TreeNode, c: Cell): (h': map<TreeNode, Cell>)
    ensures h' == h[n := c]
  {
    h[n := c]
  }

  ghost function Without(pend: map<TreeNode, Tree>, n: TreeNode): (p: map<TreeNode, Tree>)
    ensures p == pend - {n}
  {
    pend - {n}
  }

  ghost function AddCell(h: map<TreeNode, Cell>, n: TreeNode?, v: seq<Value>): (h': map<TreeNode, Cell>)
    ensures forall x :: x in h' ==> x in h || x == n
    ensures forall x :: x in h && x != n ==> x in h' && h'[x] == h[x]
  {
    if n == null || v == [] then h else h[n := Cell(v[0], null, null)]
  }

  ghost function AddTree(pend: map<TreeNode, Tree>, n: TreeNode?, ts: seq<Tree>, k: nat): map<TreeNode, Tree> {
    if n == null || k >= |ts| then pend else pend[n := ts[k]]
  }

  // One turn of the loop, on the snapshot: the front node gets its children, which join the queue.
  ghost predicate Attached(h: map<TreeNode, Cell>, q: seq<TreeNode>, vals: seq<Value>,
                           l: seq<Value>, r: seq<Value>, ts: seq<Tree>, pend: map<TreeNode, Tree>,
                           ln: TreeNode?, rn: TreeNode?,
                           h': map<TreeNode, Cell>, q': seq<TreeNode>, pend': map<TreeNode, Tree>)
  {
    && q != [] && |q| == |vals| && |l| <= 1 && |r| <= 1 && |ts| == |vals| - 1 + |l| + |r|
    && Waiting(h, q, vals, WithParent(vals[0], l, r, ts, |vals| - 1), pend)
    && (ln == null <==> l == []) && (rn == null <==> r == [])
    && (ln != null ==> ln !in h && ln != rn) && (rn != null ==> rn !in h)
    && h' == AddCell(AddCell(SetCell(h, q[0], Cell(vals[0], ln, rn)), ln, l), rn, r)
    && q' == q[1..] + One(ln) + One(rn)
    && pend' == AddTree(AddTree(Without(pend, q[0]), ln, ts, |vals| - 1), rn, ts, |vals| - 1 + |l|)
  }

  lemma AttachedWaiting(h: map<TreeNode, Cell>, q: seq<TreeNode>, vals: seq<Value>,
                        l: seq<Value>, r: seq<Value>, ts: seq<Tree>, pend: map<TreeNode, Tree>,
                        ln: TreeNode?, rn: TreeNode?,
                        h': map<TreeNode, Cell>, q': seq<TreeNode>, pend': map<TreeNode, Tree>)
    requires Attached(h, q, vals, l, r, ts, pend, ln, rn, h', q', pend')
    ensures Waiting(h', q', vals[1..] + l + r, ts, pend')
  {
    var k := |vals| - 1;
    var h0, p0 := SetCell(h, q[0], Cell(vals[0], ln, rn)), Without(pend, q[0]);
    var all := WithParent(vals[0], l, r, ts, k);
    PopWaiting(h, q, vals, all, pend, Cell(vals[0], ln, rn));
    assert all[1..] == ts[..k];
    PushWaiting(h0, q[1..], vals[1..], ts[..k], p0, ln, l, ts, k);
    PushWaiting(AddCell(h0, ln, l), q[1..] + One(ln), vals[1..] + l, ts[..k + |l|],
                AddTree(p0, ln, ts, k), rn, r, ts, k + |l|);
    assert ts[..k + |l| + |r|] == ts;
  }

  lemma PopWaiting(h: map<TreeNode, Cell>, q: seq<TreeNode>, vals: seq<Value>, ts: seq<Tree>,
                   pend: map<TreeNode, Tree>, c: Cell)
    requires q != [] && Waiting(h, q, vals, ts, pend)
    ensures Waiting(SetCell(h, q[0], c), q[1..], vals[1..], ts[1..], Without(pend, q[0]))
  {
    forall x | x in pend - {q[0]} ensures x in q[1..] {
      var j :| 0 <= j < |q| && q[j] == x;
      assert q[1..][j - 1] == x;
    }
  }

  lemma PushWaiting(h: map<TreeNode, Cell>, q: seq<TreeNode>, vals: seq<Value>, done: seq<Tree>,
                    pend: map<TreeNode, Tree>, n: TreeNode?, v: seq<Value>, ts: seq<Tree>, k: nat)
    requires |v| <= 1 && k + |v| <= |ts| && done == ts[..k] && (n == null <==> v == [])
    requires n != null ==> n !in h
    requires Waiting(h, q, vals, done, pend)
    ensures Waiting(AddCell(h, n, v), q + One(n), vals + v, ts[..k + |v|], AddTree(pend, n, ts, k))
  {
    var q' := q + One(n);
    forall x | x in AddTree(pend, n, ts, k) ensures x in q' {
      if x in pend {
        assert x in q;
      } else {
        assert q'[|q|] == x;
      }
    }
  }

  lemma AttachedNode(h: map<TreeNode, Cell>, q: seq<TreeNode>, vals: seq<Value>,
                     l: seq<Value>, r: seq<Value>, ts: seq<Tree>, pend: map<TreeNode, Tree>,
                     ln: TreeNode?, rn: TreeNode?,
                     h': map<TreeNode, Cell>, q': seq<TreeNode>, pend': map<TreeNode, Tree>)
    requires Attached(h, q, vals, l, r, ts, pend, ln, rn, h', q', pend')
    ensures q[0] in pend && q[0] !in pend' && q[0] in h' && h'[q[0]] == Cell(vals[0], ln, rn)
    ensures ln != null ==> ln in pend'
    ensures rn != null ==> rn in pend'
    ensures pend[q[0]]
      == Node(vals[0], if ln == null then Nil else pend'[ln], if rn == null then Nil else pend'[rn])
  {
    var k := |vals| - 1;
    assert pend[q[0]] == WithParent(vals[0], l, r, ts, k)[0];
    assert ln != null ==> pend'[ln] == ts[k];
    assert rn != null ==> pend'[rn] == ts[k + |l|];
  }

  lemma AttachedKeeps(h: map<TreeNode, Cell>, q: seq<TreeNode>, vals: seq<Value>,
                      l: seq<Value>, r: seq<Value>, ts: seq<Tree>, pend: map<TreeNode, Tree>,
                      ln: TreeNode?, rn: TreeNode?,
                      h': map<TreeNode, Cell>, q': seq<TreeNode>, pend': map<TreeNode, Tree>)
    requires Attached(h, q, vals, l, r, ts, pend, ln, rn, h', q', pend')
    ensures forall x :: x in h && x != q[0] ==> x in h' && h'[x] == h[x]
    ensures forall x :: x in pend && x != q[0] ==> x in pend' && pend'[x] == pend[x]
    ensures forall x :: x in pend' && x in h ==> x in pend
  {
    assert forall x :: x in pend ==> x in h;
  }

  lemma AttachedDenotes(h: map<TreeNode, Cell>, q: seq<TreeNode>, vals: seq<Value>,
                        l: seq<Value>, r: seq<Value>, ts: seq<Tree>, pend: map<TreeNode, Tree>,
                        ln: TreeNode?, rn: TreeNode?,
                        h': map<TreeNode, Cell>, q': seq<TreeNode>, pend': map<TreeNode, Tree>,
                        root: TreeNode, t: Tree)
    requires Attached(h, q, vals, l, r, ts, pend, ln, rn, h', q', pend')
    requires Denotes(h, root, t, pend)
    ensures Denotes(h', root, t, pend')
  {
    AttachedNode(h, q, vals, l, r, ts, pend, ln, rn, h', q', pend');
    AttachedKeeps(h, q, vals, l, r, ts, pend, ln, rn, h', q', pend');
    assert Denotes(h', ln, pend[q[0]].left, pend');
    assert Denotes(h', rn, pend[q[0]].right, pend');
    Complete(h, h', q[0], pend, pend', root, t);
  }

  lemma GrowUnfold(vals: seq<Value>, tok: seq<string>)
    requires vals != [] && tok != []
    ensures var l, r := Child(tok, 0), Child(tok, 1);
            Grow(vals, tok)
            == WithParent(vals[0], l, r, Grow(vals[1..] + l + r, From(tok, 2)), |vals| - 1)
  {
  }

  // The snapshot after `node` got the children that tokens `i` and `i + 1` name.
  ghost function Grown(h: map<TreeNode, Cell>, node: TreeNode, tok: seq<string>, i: nat,
                       ln: TreeNode?, rn: TreeNode?): map<TreeNode, Cell>
    requires node in h
  {
    AddCell(AddCell(SetCell(h, node, Cell(h[node].val, ln, rn)), ln, Child(tok, i)), rn, Child(tok, i + 1))
  }

  // The subtrees promised to the queue are those the remaining tokens spell.
  ghost predicate Building(h: map<TreeNode, Cell>, q: seq<TreeNode>, vals: seq<Value>, tok: seq<string>,
                           pend: map<TreeNode, Tree>, root: TreeNode, t: Tree)
  {
    Waiting(h, q, vals, Grow(vals, tok), pend) && Denotes(h, root, t, pend)
  }

  // One turn of the loop on the snapshot: the front node gets its children, which join the queue.
  lemma Advance(h: map<TreeNode, Cell>, q: seq<TreeNode>, vals: seq<Value>, tok: seq<string>, i: nat,
                pend: map<TreeNode, Tree>, ln: TreeNode?, rn: TreeNode?, root: TreeNode, t: Tree,
                h': map<TreeNode, Cell>)
    returns (next: seq<Value>, pend': map<TreeNode, Tree>)
    requires q != [] && i < |tok| && Building(h, q, vals, From(tok, i), pend, root, t)
    requires (ln == null <==> Child(tok, i) == []) && (rn == null <==> Child(tok, i + 1) == [])
    requires (ln != null ==> ln !in h && ln != rn) && (rn != null ==> rn !in h)
    requires q[0] in h && h' == Grown(h, q[0], tok, i, ln, rn)
    ensures Building(h', q[1..] + One(ln) + One(rn), next, From(tok, i + 2), pend', root, t)
  {
    var rest := From(tok, i);
    var l, r := Child(rest, 0), Child(rest, 1);
    assert From(rest, 2) == From(tok, i + 2) && l == Child(tok, i) && r == Child(tok, i + 1);
    next := vals[1..] + l + r;
    var ts := Grow(next, From(tok, i + 2));
    GrowUnfold(vals, rest);
    var q' := q[1..] + One(ln) + One(rn);
    pend' := AddTree(AddTree(Without(pend, q[0]), ln, ts, |vals| - 1), rn, ts, |vals| - 1 + |l|);
    AttachedWaiting(h, q, vals, l, r, ts, pend, ln, rn, h', q', pend');
    AttachedDenotes(h, q, vals, l, r, ts, pend, ln, rn, h', q', pend', root, t);
  }

  lemma Start(root: TreeNode, tok: seq<string>)
    returns (h: map<TreeNode, Cell>, vals: seq<Value>, pend: map<TreeNode, Tree>)
    requires tok != [] && root.val == Number(tok[0]) && root.left == null && root.right == null
    ensures Mirrors(h) && h.Keys == {root}
    ensures Building(h, [root], vals, From(tok, 1), pend, root, ParseTokens(tok))
  {
    h, vals := map[root := Cell(root.val, null, null)], [root.val];
    pend := map[root := ParseTokens(tok)];
  }

  lemma MirrorsNext(was: map<TreeNode, Cell>, h: map<TreeNode, Cell>, node: TreeNode,
                    left: TreeNode?, right: TreeNode?)
    requires forall x :: x in was && x != node ==> was[x] == Cell(x.val, x.left, x.right)
    requires forall x :: x in h ==> x in was || x == left || x == right
    requires forall x :: x in was && x != node ==> x in h && h[x] == was[x]
    requires node in h && h[node] == Cell(node.val, node.left, node.right)
    requires left != null ==> left in h && h[left] == Cell(left.val, left.left, left.right)
    requires right != null ==> right in h && h[right] == Cell(right.val, right.left, right.right)
    ensures Mirrors(h)
  {
  }

  lemma AddedCells(h: map<TreeNode, Cell>, node: TreeNode, c: Cell, ln: TreeNode?, l: seq<Value>,
                   rn: TreeNode?, r: seq<Value>, h': map<TreeNode, Cell>)
    requires node in h && |l| <= 1 && |r| <= 1 && (ln == null <==> l == []) && (rn == null <==> r == [])
    requires (ln != null ==> ln !in h && ln != rn) && (rn != null ==> rn !in h)
    requires h' == AddCell(AddCell(SetCell(h, node, c), ln, l), rn, r)
    ensures forall x :: x in h' ==> x in h || x == ln || x == rn
    ensures forall x :: x in h && x != node ==> x in h' && h'[x] == h[x]
    ensures node in h' && h'[node] == c
    ensures ln != null ==> ln in h' && h'[ln] == Cell(l[0], null, null)
    ensures rn != null ==> rn in h' && h'[rn] == Cell(r[0], null, null)
  {
  }

  // When the loop stops, whatever still waits is a leaf, and the snapshot is the linked structure.
  lemma Finished(h: map<TreeNode, Cell>, q: seq<TreeNode>, vals: seq<Value>, tok: seq<string>,
                 pend: map<TreeNode, Tree>,
                 root: TreeNode, t: Tree)
    requires Mirrors(h) && (q == [] || tok == []) && Building(h, q, vals, tok, pend, root, t)
    ensures Shows(root, t, h.Keys)
  {
    forall x | x in pend ensures Denotes(h, x, pend[x], map[]) {
      var j :| 0 <= j < |q| && q[j] == x;
      assert pend[x] == Node(vals[j], Nil, Nil);
    }
    Settle(h, pend, root, t);
    DenotesShows(h, root, t);
  }

  // `__tree`: a fresh linked structure showing exactly the parsed tree.
  method ParseNodes(s: string) returns (root: TreeNode?, ghost fp: set<TreeNode>)
    ensures fresh(fp) && Shows(root, ParseTree(s), fp)
  {
    var tok := Tokens(s);
    if tok == [] {
      return null, {};
    }
    var first := new TreeNode(Number(tok[0]));
    fp := Fill(first, tok);
    root := first;
  }

  method Fill(root: TreeNode, tok: seq<string>) returns (ghost fp: set<TreeNode>)
    requires tok != [] && root.val == Number(tok[0]) && root.left == null && root.right == null
    modifies root
    ensures root in fp && fresh(fp - {root}) && Shows(root, ParseTokens(tok), fp)
  {
    ghost var t := ParseTokens(tok);
    ghost var h, vals, pend := Start(root, tok);
    var q: seq<TreeNode> := [root];
    var i := 1;
    while q != [] && i < |tok|
      invariant 1 <= i <= |tok| + 1
      invariant Mirrors(h) && forall x :: x in h ==> x == root || fresh(x)
      invariant Building(h, q, vals, From(tok, i), pend, root, t)
      decreases |tok| + 1 - i
    {
      q, h, vals, pend := Turn(q, tok, i, h, vals, pend, root, t);
      i := i + 2;
    }
    Finished(h, q, vals, From(tok, i), pend, root, t);
    fp := h.Keys;
  }

  method Turn(q: seq<TreeNode>, tok: seq<string>, i: nat, ghost h: map<TreeNode, Cell>, ghost vals: seq<Value>,
              ghost pend: map<TreeNode, Tree>, ghost root: TreeNode, ghost t: Tree)
    returns (q': seq<TreeNode>, ghost h': map<TreeNode, Cell>, ghost vals': seq<Value>,
             ghost pend': map<TreeNode, Tree>)
    requires q != [] && i < |tok| && Mirrors(h) && Building(h, q, vals, From(tok, i), pend, root, t)
    modifies q[0]
    ensures Mirrors(h') && forall x :: x in h' ==> x in h || fresh(x)
    ensures Building(h', q', vals', From(tok, i + 2), pend', root, t)
  {
    var left, right;
    q', left, right, h' := Visit(q, tok, i, h);
    vals', pend' := Advance(h, q, vals, tok, i, pend, left, right, root, t, h');
  }

  // The body of the loop: the front node leaves the queue, tokens `i` and `i + 1` become its
  // children, and those that exist join the queue.
  method Visit(q: seq<TreeNode>, tok: seq<string>, i: nat, ghost h: map<TreeNode, Cell>)
    returns (q': seq<TreeNode>, left: TreeNode?, right: TreeNode?, ghost h': map<TreeNode, Cell>)
    requires q != [] && q[0] in h && h[q[0]].left == null && h[q[0]].right == null
    requires Mirrors(h)
    modifies q[0]
    ensures left == null <==> Child(tok, i) == []
    ensures right == null <==> Child(tok, i + 1) == []
    ensures left != null ==> left !in h && left != right
    ensures right != null ==> right !in h
    ensures q' == q[1..] + One(left) + One(right)
    ensures h' == Grown(h, q[0], tok, i, left, right) && Mirrors(h')
    ensures forall x :: x in h' ==> x in h || fresh(x)
  {
    var node := q[0];
    q', left, right := q[1..], null, null;
    if i < |tok| && tok[i] != "null" {
      var n := new TreeNode(Number(tok[i]));
      left, node.left, q' := n, n, q' + [n];
    }
    assert q' == q[1..] + One(left);
    if i + 1 < |tok| && tok[i + 1] != "null" {
      var n := new TreeNode(Number(tok[i + 1]));
      right, node.right, q' := n, n, q' + [n];
    }
    h' := Grown(h, node, tok, i, left, right);
    AddedCells(h, node, Cell(h[node].val, left, right), left, Child(tok, i), right, Child(tok, i + 1), h');
    MirrorsNext(h, h', node, left, right);
  }
}
