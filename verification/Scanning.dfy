/** The scan passes: the marked objects that something unmarked still refers to,
    and all they reach, turn BLACK; the other marked objects turn WHITE. The two
    traversals share one stack: WHITING says that an object already waits on it. */
module Scanning {
  import opened ObjectGraph
  import opened ObjectHeap
  import opened LinkedLists

  /** Some marked object with references left reaches `x`. */
  ghost predicate Held(g: Graph, marked: set<nat>, cyclic: seq<nat>, x: nat) {
    exists m :: m in marked && m < |cyclic| && cyclic[m] > 0 && Reaches(g, m, x)
  }

  /** The work done on an object is finished unless it is `p` or in `open`. */
  ghost predicate Colored(g: Graph, marked: set<nat>, cyclic: seq<nat>, color: seq<Color>, open: set<nat>) {
    && |color| == |cyclic| == |g| && Closed(g) && marked <= Objects(g) && Sealed(g, marked)
    && (forall x :: x in marked ==> color[x] in {GRAY, WHITING, WHITE, BLACK})
    && (forall x :: x in marked && color[x] == WHITING ==> x in open)
    && (forall x :: x in marked && color[x] in {WHITING, WHITE} ==> cyclic[x] == 0)
    && (forall x :: x in marked && color[x] == BLACK ==> Held(g, marked, cyclic, x))
    && (forall x, j :: x in marked && x !in open && color[x] == BLACK && 0 <= j < |g[x]| ==> color[g[x][j]] == BLACK)
    && (forall x, j :: x in marked && x !in open && color[x] == WHITE && 0 <= j < |g[x]| ==> color[g[x][j]] != GRAY)
  }

  /** The first `i` references of `p` have been followed; `st` waits. */
  ghost predicate Following(g: Graph, marked: set<nat>, cyclic: seq<nat>, color: seq<Color>, p: nat, i: nat, st: seq<nat>) {
    && Colored(g, marked, cyclic, color, {p} + Set(st))
    && p in marked && p !in st && i <= |g[p]| && color[p] in {WHITE, BLACK}
    && (forall x :: x in st ==> x in marked && color[x] in {WHITING, BLACK})
    && forall j :: 0 <= j < i ==> color[g[p][j]] == BLACK || (color[p] == WHITE && color[g[p][j]] != GRAY)
  }

  ghost function Colour(marked: set<nat>, color: seq<Color>, c: Color): set<nat> {
    set x | x in marked && x < |color| && color[x] == c
  }

  ghost function Unblack(marked: set<nat>, color: seq<Color>): set<nat> {
    set x | x in marked && x < |color| && color[x] != BLACK
  }

  /** No object turns GRAY, and an unmarked one keeps its color. */
  ghost predicate Steady(marked: set<nat>, c: seq<Color>, d: seq<Color>) {
    && |c| == |d|
    && forall x: nat :: x < |c| && c[x] != d[x] ==> x in marked && d[x] != GRAY
  }

  /** Progress: more BLACK objects, or as many and fewer GRAY ones, or neither
      and nothing more on the stack. */
  ghost predicate Progress(marked: set<nat>, c: seq<Color>, d: seq<Color>, st: seq<nat>, st': seq<nat>) {
    && Steady(marked, c, d)
    && (|| Unblack(marked, d) < Unblack(marked, c)
        || (Unblack(marked, d) == Unblack(marked, c) && Colour(marked, d, GRAY) < Colour(marked, c, GRAY))
        || (c == d && st' == st))
  }

  /** What following one reference does to the color of the object referred to. */
  ghost function Recolored(cyclic: seq<nat>, black: bool, x: nat, c: Color): Color
    requires x < |cyclic|
  {
    if black then BLACK
    else if c != GRAY then c
    else if cyclic[x] > 0 then BLACK else WHITING
  }

  ghost predicate Pushes(black: bool, c: Color) {
    if black then c != BLACK && c != WHITING else c == GRAY
  }

  lemma FollowOne(g: Graph, marked: set<nat>, cyclic: seq<nat>, color: seq<Color>, p: nat, i: nat, st: seq<nat>)
    requires Following(g, marked, cyclic, color, p, i, st) && i < |g[p]|
    ensures
      var x := g[p][i];
      var black := color[p] == BLACK;
      var color' := color[x := Recolored(cyclic, black, x, color[x])];
      var st' := if Pushes(black, color[x]) then st + [x] else st;
      && (Pushes(black, color[x]) ==> x !in st)
      && (color'[p] == BLACK <==> black)
      && Following(g, marked, cyclic, color', p, i + 1, st')
      && Progress(marked, color, color', st, st')
  {
    var x := g[p][i];
    var black := color[p] == BLACK;
    assert x in g[p];
    RecoloredHeld(g, marked, cyclic, color, p, x);
    RecoloredProgress(marked, color, x, Recolored(cyclic, black, x, color[x]), st,
                      if Pushes(black, color[x]) then st + [x] else st);
    hide Held, Unblack, Colour, Progress;
  }

  /** Only a held object turns BLACK. */
  lemma RecoloredHeld(g: Graph, marked: set<nat>, cyclic: seq<nat>, color: seq<Color>, p: nat, x: nat)
    requires Closed(g) && |color| == |cyclic| == |g| && p in marked && p < |g| && x in g[p] && x in marked && x < |g|
    requires color[p] == BLACK ==> Held(g, marked, cyclic, p)
    requires color[x] == BLACK ==> Held(g, marked, cyclic, x)
    ensures Recolored(cyclic, color[p] == BLACK, x, color[x]) == BLACK ==> Held(g, marked, cyclic, x)
  {
    if color[p] == BLACK {
      var m :| m in marked && m < |cyclic| && cyclic[m] > 0 && Reaches(g, m, p);
      ReachesStep(g, m, p, x);
    } else if cyclic[x] > 0 {
      ReachesSelf(g, x);
    }
  }

  lemma RecoloredProgress(marked: set<nat>, color: seq<Color>, x: nat, c: Color, st: seq<nat>, st': seq<nat>)
    requires x < |color| && (c != color[x] ==> x in marked && c != GRAY && color[x] != BLACK)
    requires c != color[x] ==> c == BLACK || color[x] == GRAY
    requires c == color[x] ==> st' == st
    ensures Progress(marked, color, color[x := c], st, st')
  {
    var color' := color[x := c];
    if c != color[x] {
      if c == BLACK {
        assert x in Unblack(marked, color) && x !in Unblack(marked, color');
      } else {
        assert x in Colour(marked, color, GRAY) && x !in Colour(marked, color', GRAY);
        assert Unblack(marked, color') == Unblack(marked, color);
      }
    }
  }

  /** An object taken from the stack, or a candidate about to be scanned. */
  ghost predicate Taken(g: Graph, marked: set<nat>, cyclic: seq<nat>, color: seq<Color>, p: nat, st: seq<nat>) {
    && Colored(g, marked, cyclic, color, {p} + Set(st))
    && p in marked && p !in st && (color[p] == BLACK || cyclic[p] == 0)
    && forall x :: x in st ==> x in marked && color[x] in {WHITING, BLACK}
  }

  lemma StartStep(g: Graph, marked: set<nat>, cyclic: seq<nat>, color: seq<Color>, p: nat, st: seq<nat>)
    requires Taken(g, marked, cyclic, color, p, st)
    ensures p < |g|
    ensures
      var color' := if color[p] == BLACK then color else color[p := WHITE];
      && Following(g, marked, cyclic, color', p, 0, st)
      && (Unblack(marked, color') == Unblack(marked, color))
      && Colour(marked, color', GRAY) <= Colour(marked, color, GRAY)
  {
    var color' := if color[p] == BLACK then color else color[p := WHITE];
    assert Colored(g, marked, cyclic, color', {p} + Set(st));
  }

  lemma FinishStep(g: Graph, marked: set<nat>, cyclic: seq<nat>, color: seq<Color>, p: nat, st: seq<nat>)
    requires Following(g, marked, cyclic, color, p, if p < |g| then |g[p]| else 0, st)
    requires st != [] ==> st[|st| - 1] !in st[..|st| - 1]
    ensures
      if st == [] then Colored(g, marked, cyclic, color, {})
      else Taken(g, marked, cyclic, color, st[|st| - 1], st[..|st| - 1])
  {
    if st != [] {
      var top, rest := st[|st| - 1], st[..|st| - 1];
      assert top in st && forall x :: x in rest ==> x in st;
      assert {top} + Set(rest) == Set(st);
    }
  }

  lemma ProgressSelf(marked: set<nat>, c: seq<Color>, st: seq<nat>)
    ensures Progress(marked, c, c, st, st)
  {
  }

  lemma ProgressTrans(marked: set<nat>, c: seq<Color>, d: seq<Color>, e: seq<Color>,
                      st: seq<nat>, st': seq<nat>, st'': seq<nat>)
    requires Progress(marked, c, d, st, st') && Progress(marked, d, e, st', st'')
    ensures Progress(marked, c, e, st, st'')
  {
  }

  /** t_object::f_scan_gray_step */
  method ScanGrayStep(h: Heap, p: nat, ghost marked: set<nat>, ghost st: seq<nat>) returns (ghost st': seq<nat>)
    requires h.Shaped() && h.Stacked(st) && p < |h.g| && Taken(h.g, marked, h.cyclic, h.color, p, st)
    modifies h`color, h`scan, h`scanStack
    ensures h.Shaped() && h.Stacked(st') && Following(h.g, marked, h.cyclic, h.color, p, |h.g[p]|, st')
    ensures Progress(marked, Whitened(old(h.color), p), h.color, st, st')
  {
    hide Following, Taken, Progress;
    StartStep(h.g, marked, h.cyclic, h.color, p, st);
    var black := h.color[p] == BLACK;
    if !black {
      h.color := h.color[p := WHITE];
    }
    st' := st;
    ghost var c := h.color;
    ProgressSelf(marked, c, st);
    for i := 0 to |h.g[p]|
      invariant h.Shaped() && h.Stacked(st') && Following(h.g, marked, h.cyclic, h.color, p, i, st')
      invariant black == (h.color[p] == BLACK) && Progress(marked, c, h.color, st, st')
    {
      st' := FollowPush(h, p, i, black, marked, c, st, st');
    }
  }

  /** One reference followed by f_scan_gray_step: in a BLACK object with
      f_scan_gray_scan_black_push, in another with f_scan_gray_push. */
  method FollowPush(h: Heap, p: nat, i: nat, black: bool, ghost marked: set<nat>, ghost c: seq<Color>, ghost st0: seq<nat>,
                    ghost st: seq<nat>)
      returns (ghost st': seq<nat>)
    requires h.Shaped() && h.Stacked(st) && p < |h.g| && i < |h.g[p]| && black == (h.color[p] == BLACK)
    requires Following(h.g, marked, h.cyclic, h.color, p, i, st) && Progress(marked, c, h.color, st0, st)
    modifies h`color, h`scan, h`scanStack
    ensures h.Shaped() && h.Stacked(st') && black == (h.color[p] == BLACK)
    ensures Following(h.g, marked, h.cyclic, h.color, p, i + 1, st') && Progress(marked, c, h.color, st0, st')
  {
    hide Following, Progress;
    FollowOne(h.g, marked, h.cyclic, h.color, p, i, st);
    ghost var d := h.color;
    if black {
      st' := ScanGrayScanBlackPush(h, h.g[p][i], st);
    } else {
      st' := ScanGrayPush(h, h.g[p][i], st);
    }
    ProgressTrans(marked, c, d, h.color, st0, st, st');
  }

  ghost function Whitened(color: seq<Color>, p: nat): seq<Color> {
    if p < |color| && color[p] != BLACK then color[p := WHITE] else color
  }

  /** t_object::f_scan_gray_scan_black_push: an object that already waits is only recoloured. */
  method ScanGrayScanBlackPush(h: Heap, x: nat, ghost st: seq<nat>) returns (ghost st': seq<nat>)
    requires h.Shaped() && h.Stacked(st) && x < |h.g| && (Pushes(true, h.color[x]) ==> x !in st)
    modifies h`color, h`scan, h`scanStack
    ensures h.Shaped() && h.Stacked(st')
    ensures h.color == old(h.color)[x := Recolored(h.cyclic, true, x, old(h.color[x]))]
    ensures st' == if Pushes(true, old(h.color[x])) then st + [x] else st
  {
    st' := st;
    if h.color[x] == BLACK {
      return;
    }
    if h.color[x] != WHITING {
      h.Push(x, st);
      st' := st + [x];
    }
    h.color := h.color[x := BLACK];
  }

  /** t_object::f_scan_gray_push */
  method ScanGrayPush(h: Heap, x: nat, ghost st: seq<nat>) returns (ghost st': seq<nat>)
    requires h.Shaped() && h.Stacked(st) && x < |h.g| && (Pushes(false, h.color[x]) ==> x !in st)
    modifies h`color, h`scan, h`scanStack
    ensures h.Shaped() && h.Stacked(st')
    ensures h.color == old(h.color)[x := Recolored(h.cyclic, false, x, old(h.color[x]))]
    ensures st' == if Pushes(false, old(h.color[x])) then st + [x] else st
  {
    st' := st;
    if h.color[x] != GRAY {
      return;
    }
    h.color := h.color[x := if h.cyclic[x] > 0 then BLACK else WHITING];
    h.Push(x, st);
    st' := st + [x];
  }

  /** t_object::f_scan_black_push */
  method ScanBlackPush(h: Heap, x: nat, ghost st: seq<nat>) returns (ghost st': seq<nat>)
    requires h.Shaped() && h.Stacked(st) && x < |h.g| && (h.color[x] != BLACK ==> x !in st)
    modifies h`color, h`scan, h`scanStack
    ensures h.Shaped() && h.Stacked(st') && h.color == old(h.color)[x := BLACK]
    ensures st' == if old(h.color[x]) == BLACK then st else st + [x]
  {
    st' := st;
    if h.color[x] == BLACK {
      return;
    }
    h.color := h.color[x := BLACK];
    h.Push(x, st);
    st' := st + [x];
  }

  ghost predicate AllBlack(color: seq<Color>, st: seq<nat>) {
    forall x :: x in st ==> x < |color| && color[x] == BLACK
  }

  /** While only BLACK objects wait, nothing is WHITING. */
  lemma FollowBlack(g: Graph, marked: set<nat>, cyclic: seq<nat>, color: seq<Color>, p: nat, i: nat, st: seq<nat>)
    requires Following(g, marked, cyclic, color, p, i, st) && i < |g[p]| && color[p] == BLACK && AllBlack(color, st)
    ensures
      var x := g[p][i];
      var st' := if color[x] == BLACK then st else st + [x];
      && Recolored(cyclic, true, x, color[x]) == BLACK && (Pushes(true, color[x]) <==> color[x] != BLACK)
      && AllBlack(color[x := BLACK], st')
  {
    var x := g[p][i];
    assert x in g[p] && x in marked;
  }

  /** t_object::f_step<f_scan_black_push> */
  method ScanBlackStep(h: Heap, p: nat, ghost marked: set<nat>, ghost st: seq<nat>) returns (ghost st': seq<nat>)
    requires h.Shaped() && h.Stacked(st) && p < |h.g| && h.color[p] == BLACK && AllBlack(h.color, st)
    requires Following(h.g, marked, h.cyclic, h.color, p, 0, st)
    modifies h`color, h`scan, h`scanStack
    ensures h.Shaped() && h.Stacked(st') && AllBlack(h.color, st')
    ensures Following(h.g, marked, h.cyclic, h.color, p, |h.g[p]|, st')
    ensures Progress(marked, old(h.color), h.color, st, st')
  {
    hide Following, Progress, AllBlack;
    st' := st;
    ghost var c := h.color;
    ProgressSelf(marked, c, st);
    for i := 0 to |h.g[p]|
      invariant h.Shaped() && h.Stacked(st') && h.color[p] == BLACK && AllBlack(h.color, st')
      invariant Following(h.g, marked, h.cyclic, h.color, p, i, st') && Progress(marked, c, h.color, st, st')
    {
      ghost var d, st0 := h.color, st';
      FollowOne(h.g, marked, h.cyclic, h.color, p, i, st');
      FollowBlack(h.g, marked, h.cyclic, h.color, p, i, st');
      st' := ScanBlackPush(h, h.g[p][i], st');
      ProgressTrans(marked, c, d, h.color, st, st0, st');
    }
  }

  /** What f_loop takes next, when there is anything left. */
  method Next(h: Heap, p: nat, ghost marked: set<nat>, ghost st: seq<nat>) returns (top: int, ghost st': seq<nat>)
    requires h.Shaped() && h.Stacked(st) && p < |h.g|
    requires Following(h.g, marked, h.cyclic, h.color, p, |h.g[p]|, st)
    modifies h`scanStack
    ensures h.Stacked(st') && h.color[p] != GRAY
    ensures
      if top == NIL then st == st' == [] && Colored(h.g, marked, h.cyclic, h.color, {})
      else 0 <= top < |h.g| && st == st' + [top] && Taken(h.g, marked, h.cyclic, h.color, top, st')
  {
    FinishStep(h.g, marked, h.cyclic, h.color, p, st);
    top := h.Pop(st);
    st' := if st == [] then [] else st[..|st| - 1];
  }

  /** The measure of f_loop goes down. */
  ghost predicate Less(marked: set<nat>, c: seq<Color>, d: seq<Color>, st: seq<nat>, st': seq<nat>) {
    || Unblack(marked, d) < Unblack(marked, c)
    || (Unblack(marked, d) == Unblack(marked, c)
        && (|| Colour(marked, d, GRAY) < Colour(marked, c, GRAY)
            || (Colour(marked, d, GRAY) == Colour(marked, c, GRAY) && |st'| < |st|)))
  }

  lemma RoundProgress(marked: set<nat>, c0: seq<Color>, c: seq<Color>, d: seq<Color>, p: nat, st: seq<nat>,
                      st': seq<nat>, top: int, st'': seq<nat>)
    requires p in marked && p < |c| && Steady(marked, c0, c) && Progress(marked, Whitened(c, p), d, st, st')
    requires st' == if top < 0 then [] else st'' + [top]
    ensures Steady(marked, c0, d) && (top >= 0 ==> Less(marked, c, d, st, st''))
    ensures forall x :: 0 <= x < |c| && c[x] != GRAY ==> d[x] != GRAY
  {
    assert Unblack(marked, Whitened(c, p)) == Unblack(marked, c);
    assert Colour(marked, Whitened(c, p), GRAY) <= Colour(marked, c, GRAY);
  }

  /** One round of f_loop with f_scan_gray_step. */
  method GrayRound(h: Heap, p: nat, ghost r: nat, ghost marked: set<nat>, ghost st: seq<nat>, ghost c0: seq<Color>)
      returns (top: int, ghost st': seq<nat>)
    requires h.Shaped() && h.Stacked(st) && p < |h.g| && p in marked && Taken(h.g, marked, h.cyclic, h.color, p, st)
    requires Steady(marked, c0, h.color) && r < |h.g| && (p == r || h.color[r] != GRAY)
    modifies h`color, h`scan, h`scanStack
    ensures h.Shaped() && h.Stacked(st') && Steady(marked, c0, h.color) && h.color[r] != GRAY
    ensures
      if top == NIL then st' == [] && Colored(h.g, marked, h.cyclic, h.color, {})
      else
        && 0 <= top < |h.g| && Taken(h.g, marked, h.cyclic, h.color, top, st')
        && Less(marked, old(h.color), h.color, st, st')
  {
    hide Following, Taken, Colored, Steady, Progress, Less;
    ghost var c := h.color;
    ghost var st1 := ScanGrayStep(h, p, marked, st);
    top, st' := Next(h, p, marked, st1);
    RoundProgress(marked, c0, c, h.color, p, st, st1, top, st');
  }

  /** One round of f_loop with f_scan_black_push. */
  method BlackRound(h: Heap, p: nat, ghost r: nat, ghost marked: set<nat>, ghost st: seq<nat>, ghost c0: seq<Color>)
      returns (top: int, ghost st': seq<nat>)
    requires h.Shaped() && h.Stacked(st) && p < |h.g| && p in marked && Taken(h.g, marked, h.cyclic, h.color, p, st)
    requires Steady(marked, c0, h.color) && r < |h.g| && (p == r || h.color[r] != GRAY)
    requires h.color[p] == BLACK && AllBlack(h.color, st)
    modifies h`color, h`scan, h`scanStack
    ensures h.Shaped() && h.Stacked(st') && Steady(marked, c0, h.color) && h.color[r] != GRAY
    ensures
      if top == NIL then st' == [] && Colored(h.g, marked, h.cyclic, h.color, {})
      else
        && 0 <= top < |h.g| && Taken(h.g, marked, h.cyclic, h.color, top, st')
        && Less(marked, old(h.color), h.color, st, st') && h.color[top] == BLACK && AllBlack(h.color, st')
  {
    hide Following, Taken, Colored, Steady, Progress, Less;
    ghost var c := h.color;
    StartStep(h.g, marked, h.cyclic, h.color, p, st);
    ghost var st1 := ScanBlackStep(h, p, marked, st);
    top, st' := Next(h, p, marked, st1);
    RoundProgress(marked, c0, c, h.color, p, st, st1, top, st');
    assert top != NIL ==> top in st1 && forall x :: x in st' ==> x in st1;
  }

  lemma TakenMarked(g: Graph, marked: set<nat>, cyclic: seq<nat>, color: seq<Color>, p: nat, st: seq<nat>)
    requires Taken(g, marked, cyclic, color, p, st)
    ensures p in marked
  {
  }

  /** The blackening half of t_object::f_scan_gray. */
  method ScanBlack(h: Heap, r: nat, ghost marked: set<nat>)
    requires h.Shaped() && h.Stacked([]) && r in marked && r < |h.g| && h.color[r] == GRAY && h.cyclic[r] > 0
    requires Colored(h.g, marked, h.cyclic, h.color, {})
    modifies h`color, h`scan, h`scanStack
    ensures h.Shaped() && h.Stacked([]) && Colored(h.g, marked, h.cyclic, h.color, {})
    ensures Steady(marked, old(h.color), h.color) && h.color[r] != GRAY
  {
    ReachesSelf(h.g, r);
    h.color := h.color[r := BLACK];
    var p: nat := r;
    ghost var st: seq<nat> := [];
    assert Taken(h.g, marked, h.cyclic, h.color, p, st);
    assert Steady(marked, old(h.color), h.color);
    hide Taken, Colored, Unblack, Colour, Steady, AllBlack;
    while true
      invariant h.Shaped() && h.Stacked(st) && p < |h.g| && Taken(h.g, marked, h.cyclic, h.color, p, st)
      invariant h.color[p] == BLACK && AllBlack(h.color, st)
      invariant Steady(marked, old(h.color), h.color) && (p == r || h.color[r] != GRAY)
      decreases Unblack(marked, h.color), Colour(marked, h.color, GRAY), |st|
    {
      TakenMarked(h.g, marked, h.cyclic, h.color, p, st);
      var top;
      top, st := BlackRound(h, p, r, marked, st, old(h.color));
      if top == NIL {
        break;
      }
      p := top;
    }
  }

  /** t_object::f_scan_gray */
  method ScanGray(h: Heap, r: nat, ghost marked: set<nat>)
    requires h.Shaped() && h.Stacked([]) && r in marked && r < |h.g|
    requires Colored(h.g, marked, h.cyclic, h.color, {})
    modifies h`color, h`scan, h`scanStack
    ensures h.Shaped() && h.Stacked([]) && Colored(h.g, marked, h.cyclic, h.color, {})
    ensures Steady(marked, old(h.color), h.color) && h.color[r] != GRAY
  {
    if h.color[r] != GRAY {
      return;
    }
    if h.cyclic[r] > 0 {
      ScanBlack(h, r, marked);
      return;
    }
    var p: nat := r;
    ghost var st: seq<nat> := [];
    assert Taken(h.g, marked, h.cyclic, h.color, p, st);
    assert Steady(marked, old(h.color), h.color);
    hide Taken, Colored, Unblack, Colour, Steady;
    while true
      invariant h.Shaped() && h.Stacked(st) && p < |h.g| && Taken(h.g, marked, h.cyclic, h.color, p, st)
      invariant Steady(marked, old(h.color), h.color) && (p == r || h.color[r] != GRAY)
      decreases Unblack(marked, h.color), Colour(marked, h.color, GRAY), |st|
    {
      TakenMarked(h.g, marked, h.cyclic, h.color, p, st);
      var top;
      top, st := GrayRound(h, p, r, marked, st, old(h.color));
      if top == NIL {
        break;
      }
      p := top;
    }
  }

  /** After the pass over the candidates, a marked object is WHITE exactly when no
      marked object with a reference left reaches it, and BLACK otherwise. */
  ghost predicate Verdict(g: Graph, marked: set<nat>, cyclic: seq<nat>, color: seq<Color>) {
    && |color| == |cyclic| == |g|
    && forall x :: x in marked && x < |g| ==> color[x] == if Held(g, marked, cyclic, x) then BLACK else WHITE
  }

  /** All the marked objects are reachable from `ks`. */
  ghost predicate From(g: Graph, marked: set<nat>, ks: seq<nat>) {
    forall x :: x in marked ==> exists r :: r in Set(ks) && Reaches(g, r, x)
  }

  /** Nothing WHITE leads to anything GRAY, and nothing BLACK to anything else. */
  lemma ColoredSealed(g: Graph, marked: set<nat>, cyclic: seq<nat>, color: seq<Color>)
    requires Colored(g, marked, cyclic, color, {})
    ensures Sealed(g, marked - Colour(marked, color, GRAY)) && Sealed(g, Colour(marked, color, BLACK))
  {
    var seen, blacks := marked - Colour(marked, color, GRAY), Colour(marked, color, BLACK);
    forall y, x | y in seen && y < |g| && x in g[y]
      ensures x in seen
      ensures y in blacks ==> x in blacks
    {
      var j :| 0 <= j < |g[y]| && g[y][j] == x;
    }
  }

  lemma FromAt(g: Graph, marked: set<nat>, ks: seq<nat>, x: nat) returns (r: nat)
    requires From(g, marked, ks) && x in marked
    ensures r in ks && Reaches(g, r, x)
  {
    r :| r in Set(ks) && Reaches(g, r, x);
  }

  lemma NoneGray(g: Graph, marked: set<nat>, cyclic: seq<nat>, color: seq<Color>, ks: seq<nat>, x: nat)
    requires Colored(g, marked, cyclic, color, {}) && From(g, marked, ks) && x in marked
    requires forall j :: 0 <= j < |ks| ==> ks[j] in marked && ks[j] < |color| && color[ks[j]] != GRAY
    ensures x < |color| && (color[x] == BLACK || color[x] == WHITE)
  {
    hide From;
    ColoredSealed(g, marked, cyclic, color);
    var r := FromAt(g, marked, ks, x);
    SealedHolds(g, marked - Colour(marked, color, GRAY), r, x);
  }

  lemma Decide(g: Graph, marked: set<nat>, cyclic: seq<nat>, color: seq<Color>, ks: seq<nat>)
    requires Colored(g, marked, cyclic, color, {}) && From(g, marked, ks)
    requires forall j :: 0 <= j < |ks| ==> ks[j] in marked && ks[j] < |color| && color[ks[j]] != GRAY
    ensures Verdict(g, marked, cyclic, color)
  {
    hide From;
    forall x | x in marked && x < |g|
      ensures color[x] == if Held(g, marked, cyclic, x) then BLACK else WHITE
    {
      NoneGray(g, marked, cyclic, color, ks, x);
      if Held(g, marked, cyclic, x) {
        var m :| m in marked && m < |cyclic| && cyclic[m] > 0 && Reaches(g, m, x);
        NoneGray(g, marked, cyclic, color, ks, m);
        ColoredSealed(g, marked, cyclic, color);
        SealedHolds(g, Colour(marked, color, BLACK), m, x);
      }
    }
  }

  lemma SteadyTrans(marked: set<nat>, c: seq<Color>, d: seq<Color>, e: seq<Color>)
    requires Steady(marked, c, d) && Steady(marked, d, e)
    ensures Steady(marked, c, e)
    ensures forall x :: 0 <= x < |d| && d[x] != GRAY ==> e[x] != GRAY
  {
  }

  /** The scan pass over the candidates. */
  method ScanPass(h: Heap, ghost marked: set<nat>, ghost ks: seq<nat>)
    requires h.Shaped() && h.Stacked([]) && Listing(h.next, |h.g|, ks) && ks != []
    requires marked <= Objects(h.g) && Sealed(h.g, marked) && From(h.g, marked, ks)
    requires forall x :: x in marked ==> h.color[x] == GRAY
    requires forall j :: 0 <= j < |ks| ==> ks[j] in marked
    modifies h`color, h`scan, h`scanStack
    ensures h.Shaped() && h.Stacked([])
    ensures Verdict(h.g, marked, h.cyclic, h.color)
    ensures Steady(marked, old(h.color), h.color)
  {
    hide From;
    ghost var i := 0;
    var p: nat := h.next[|h.g|];
    assert Colored(h.g, marked, h.cyclic, h.color, {}) && Steady(marked, old(h.color), h.color);
    hide Colored, Steady, Verdict, Sealed;
    while true
      invariant h.Shaped() && h.Stacked([]) && i < |ks| && p == ks[i]
      invariant Colored(h.g, marked, h.cyclic, h.color, {}) && Steady(marked, old(h.color), h.color)
      invariant forall j :: 0 <= j < i ==> h.color[ks[j]] != GRAY
      decreases |ks| - i
    {
      ghost var c := h.color;
      ScanGray(h, p, marked);
      SteadyTrans(marked, old(h.color), c, h.color);
      LeadsAt(h.next, |h.g|, ks, |h.g|, i);
      i := i + 1;
      if h.next[p] == |h.g| {
        break;
      }
      p := h.next[p];
    }
    Decide(h.g, marked, h.cyclic, h.color, ks);
  }
}
