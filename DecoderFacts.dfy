/** Properties of the lamp pass and the margin pass of draw.c's `light`,
    stated over the specification functions that the methods in `Decoder`
    are proved against. */
module DecoderFacts {
  import opened CInt
  import opened Signal
  import opened Decoder
  import opened SeqFacts

  // ---------------------------------------------------------------------
  // Walking a layout in pieces

  lemma LampSnoc(init: LampCursor, s: string, c: char, env: Env)
    ensures LampAfter(init, s + [c], env) == LampStep(LampAfter(init, s, env), c, env)
    ensures Lamps(init, s + [c], env)
            == Lamps(init, s, env) + (if IsPosition(c) then [Emit(LampAfter(init, s, env), c, env)] else [])
    ensures Positions(s + [c]) == Positions(s) + (if IsPosition(c) then [c] else [])
  {
    assert (s + [c])[..|s|] == s;
  }

  /** Decoding `s + t` is decoding `s`, then decoding `t` from where `s`
      left the cursor. */
  lemma {:induction false} LampAppend(init: LampCursor, s: string, t: string, env: Env)
    ensures LampAfter(init, s + t, env) == LampAfter(LampAfter(init, s, env), t, env)
    ensures Lamps(init, s + t, env) == Lamps(init, s, env) + Lamps(LampAfter(init, s, env), t, env)
    ensures Positions(s + t) == Positions(s) + Positions(t)
    decreases |t|
  {
    if t == [] {
      assert s + t == s;
      assert Lamps(init, s, env) + [] == Lamps(init, s, env);
      assert Positions(s) + [] == Positions(s);
    } else {
      var t', c := t[..|t| - 1], t[|t| - 1];
      assert t == t' + [c];
      assert s + t == (s + t') + [c];
      LampAppend(init, s, t', env);
      LampSnoc(init, s + t', c, env);
      LampSnoc(LampAfter(init, s, env), t', c, env);
    }
  }

  // ---------------------------------------------------------------------
  // One record per position, one state character per record

  /** The lamp pass emits one record per position character, in order; the
      `k`-th record reads state character `init.stateI + k` and takes its
      colour from it and from the `k`-th position character. */
  lemma {:induction false} Counting(init: LampCursor, s: string, env: Env)
    ensures |Lamps(init, s, env)| == |Positions(s)|
    ensures LampAfter(init, s, env).stateI == init.stateI + |Positions(s)|
    ensures forall k :: 0 <= k < |Positions(s)| ==>
              Lamps(init, s, env)[k].color
                == StateColor(StateChar(env.state, init.stateI + k), LayoutColor(Positions(s)[k]))
              && Lamps(init, s, env)[k].drawn == (Lamps(init, s, env)[k].color != DontPrint)
  {
    if s != [] {
      var pre, c := s[..|s| - 1], s[|s| - 1];
      assert s == pre + [c];
      Counting(init, pre, env);
      LampSnoc(init, pre, c, env);
    }
  }

  predicate RGYW(sc: char) { sc == 'r' || sc == 'y' || sc == 'g' || sc == 'w' }

  /** A position is left undrawn exactly when its layout colour is `#` and
      its state character does not override the colour; an unknown layout
      character is drawn with the unset colour unless the state overrides it. */
  lemma DrawnExactly(originX: int, nextLarge: bool, s: string, env: Env)
    ensures |Lamps(LampStart(originX, nextLarge), s, env)| == |Positions(s)|
    ensures forall k :: 0 <= k < |Positions(s)| ==>
              ((!Lamps(LampStart(originX, nextLarge), s, env)[k].drawn) <==>
               Positions(s)[k] == '#' && !RGYW(StateChar(env.state, k)))
    ensures forall k :: 0 <= k < |Positions(s)| && !IsLayoutColor(Positions(s)[k]) && !RGYW(StateChar(env.state, k)) ==>
              Lamps(LampStart(originX, nextLarge), s, env)[k].color == Unset
  {
    var init := LampStart(originX, nextLarge);
    Counting(init, s, env);
    var recs, ps := Lamps(init, s, env), Positions(s);
    forall k | 0 <= k < |ps|
      ensures (!recs[k].drawn <==> ps[k] == '#' && !RGYW(StateChar(env.state, k)))
      ensures !IsLayoutColor(ps[k]) && !RGYW(StateChar(env.state, k)) ==> recs[k].color == Unset
    {
      ColorRule(StateChar(env.state, k), ps[k]);
    }
  }

  lemma ColorRule(sc: char, ch: char)
    ensures (StateColor(sc, LayoutColor(ch)) == DontPrint) <==> ch == '#' && !RGYW(sc)
    ensures !IsLayoutColor(ch) && !RGYW(sc) ==> StateColor(sc, LayoutColor(ch)) == Unset
  {
  }

  // ---------------------------------------------------------------------
  // Rows, anchors and geometry

  /** The cursor at the start of the lamp pass (whatever the large marker). */
  predicate Fresh(c: LampCursor) {
    c.n == 0 && c.top == -1 && c.largeCount == 0 && c.stateI == 0
  }

  /** Rows never go negative and never run ahead of the position count: the
      anchor is always a row already reached. */
  lemma {:induction false} RowBounds(init: LampCursor, s: string, env: Env)
    requires Fresh(init)
    ensures 0 <= LampAfter(init, s, env).n <= LampAfter(init, s, env).stateI
    ensures -1 <= LampAfter(init, s, env).top <= LampAfter(init, s, env).n
    ensures forall k :: 0 <= k < |Lamps(init, s, env)| ==> 0 <= Lamps(init, s, env)[k].row <= k
  {
    if s != [] {
      var pre, c := s[..|s| - 1], s[|s| - 1];
      assert s == pre + [c];
      RowBounds(init, pre, env);
      Counting(init, pre, env);
      LampSnoc(init, pre, c, env);
    }
  }

  /** The number of large records in `rs`. */
  function LargeCount(rs: seq<LampRecord>): nat {
    if rs == [] then 0
    else LargeCount(rs[..|rs| - 1]) + if rs[|rs| - 1].large then 1 else 0
  }

  /** Every record sits one size per row plus half a size per earlier large
      record below the top, and a large record is half as big again. */
  lemma {:induction false} Geometry(init: LampCursor, s: string, env: Env)
    requires init.largeCount == 0
    ensures LampAfter(init, s, env).largeCount == LargeCount(Lamps(init, s, env))
    ensures forall k :: 0 <= k < |Lamps(init, s, env)| ==>
              Lamps(init, s, env)[k].yOffset
                == YOffset(env.size, Lamps(init, s, env)[k].row, LargeCount(Lamps(init, s, env)[..k]))
              && Lamps(init, s, env)[k].size
                == (if Lamps(init, s, env)[k].large then LargeSize(env.size) else env.size)
  {
    if s != [] {
      var pre, c := s[..|s| - 1], s[|s| - 1];
      assert s == pre + [c];
      Geometry(init, pre, env);
      var cur := LampAfter(init, pre, env);
      var a := Lamps(init, pre, env);
      if IsPosition(c) {
        EmitSnoc(init, pre, c, env);
        PositionStep(cur, c, env);
        var e := Emit(cur, c, env);
        var b := a + [e];
        assert Lamps(init, s, env) == b;
        LargeCountSnoc(a, e);
        forall k | 0 <= k < |b|
          ensures b[k].yOffset == YOffset(env.size, b[k].row, LargeCount(b[..k]))
                  && b[k].size == (if b[k].large then LargeSize(env.size) else env.size)
        {
          if k < |a| {
            assert b[k] == a[k] && b[..k] == a[..k];
          } else {
            assert b[k] == e && b[..k] == a;
          }
        }
      } else {
        ModifierSnoc(init, pre, c, env);
        ModifierStep(cur, c, env);
      }
    }
  }

  /** A position character counts a pending large marker. */
  lemma PositionStep(c: LampCursor, ch: char, env: Env)
    requires IsPosition(ch)
    ensures LampStep(c, ch, env).largeCount == c.largeCount + (if c.nextLarge then 1 else 0)
  {
  }

  lemma LargeCountSnoc(rs: seq<LampRecord>, r: LampRecord)
    ensures LargeCount(rs + [r]) == LargeCount(rs) + (if r.large then 1 else 0)
    ensures (rs + [r])[..|rs|] == rs
  {
    assert (rs + [r])[..|rs|] == rs;
  }

  predicate NoGrouping(s: string) {
    forall i :: 0 <= i < |s| ==> !IsGrouping(s[i])
  }

  /** Between grouping tokens rows simply count up from the cursor's row, and
      the column stays put (a large lamp is shifted left by a quarter size). */
  lemma {:induction false} RunWithoutGrouping(cur: LampCursor, s: string, env: Env)
    requires NoGrouping(s)
    ensures LampAfter(cur, s, env).n == cur.n + |Positions(s)|
    ensures LampAfter(cur, s, env).x == cur.x && LampAfter(cur, s, env).top == cur.top
    ensures |Lamps(cur, s, env)| == |Positions(s)|
    ensures forall k :: 0 <= k < |Lamps(cur, s, env)| ==>
              Lamps(cur, s, env)[k].row == cur.n + k
              && Lamps(cur, s, env)[k].x == cur.x - (if Lamps(cur, s, env)[k].large then LargeShift(env.size) else 0)
  {
    if s != [] {
      var pre, c := s[..|s| - 1], s[|s| - 1];
      assert s == pre + [c];
      assert NoGrouping(pre) by {
        forall i | 0 <= i < |pre| ensures pre[i] == s[i] { }
      }
      RunWithoutGrouping(cur, pre, env);
      Counting(cur, pre, env);
      LampSnoc(cur, pre, c, env);
    }
  }

  /** A grouping token `:` or `;` moves the row to the anchor (setting it
      when there is none) and the column half a size left or right. */
  lemma AnchorSnoc(init: LampCursor, s: string, ch: char, env: Env)
    requires ch == ':' || ch == ';'
    ensures LampAfter(init, s + [ch], env).n == AnchorRow(LampAfter(init, s, env).n, LampAfter(init, s, env).top)
    ensures LampAfter(init, s + [ch], env).top == AnchorRow(LampAfter(init, s, env).n, LampAfter(init, s, env).top)
    ensures LampAfter(init, s + [ch], env).x
            == if ch == ':' then env.originX - CDiv(env.size, 2) else env.originX + CDiv(env.size, 2)
    ensures Lamps(init, s + [ch], env) == Lamps(init, s, env)
    ensures Positions(s + [ch]) == Positions(s)
  {
    LampSnoc(init, s, ch, env);
    assert Lamps(init, s, env) + [] == Lamps(init, s, env);
    assert Positions(s) + [] == Positions(s);
  }

  function Doghouse(p: string, a: string, b: string): string {
    p + [':'] + a + [';'] + b
  }

  /** Decoding a doghouse layout in its five pieces. */
  lemma DoghouseSplit(init: LampCursor, p: string, a: string, b: string, env: Env)
    requires Fresh(init) && NoGrouping(a)
    requires LampAfter(init, p, env).top == -1
    ensures Lamps(init, Doghouse(p, a, b), env)
            == Lamps(init, p, env) + Lamps(LampAfter(init, p + [':'], env), a, env)
               + Lamps(LampAfter(init, p + [':'] + a + [';'], env), b, env)
    ensures LampAfter(init, p + [':'], env).n == LampAfter(init, p, env).n
    ensures LampAfter(init, p + [':'], env).x == env.originX - CDiv(env.size, 2)
    ensures LampAfter(init, p + [':'] + a + [';'], env).n == LampAfter(init, p, env).n
    ensures LampAfter(init, p + [':'] + a + [';'], env).x == env.originX + CDiv(env.size, 2)
  {
    RowBounds(init, p, env);
    var s1 := p + [':'];
    AnchorSnoc(init, p, ':', env);
    var c1 := LampAfter(init, s1, env);
    var s2 := s1 + a;
    LampAppend(init, s1, a, env);
    RunWithoutGrouping(c1, a, env);
    var s3 := s2 + [';'];
    AnchorSnoc(init, s2, ';', env);
    LampAppend(init, s3, b, env);
    assert Doghouse(p, a, b) == s3 + b;
  }

  /** The doghouse: with no anchor set after `p`, the `j`-th lamp after `;`
      takes the row of the `j`-th lamp after `:`, the first group half a size
      left of the light's column and the second half a size right. */
  lemma DoghouseRows(init: LampCursor, p: string, a: string, b: string, env: Env)
    requires Fresh(init) && NoGrouping(a) && NoGrouping(b)
    requires LampAfter(init, p, env).top == -1
    ensures |Lamps(init, Doghouse(p, a, b), env)| == |Positions(p)| + |Positions(a)| + |Positions(b)|
    ensures forall i :: |Positions(p)| <= i < |Positions(p)| + |Positions(a)| ==>
              Lamps(init, Doghouse(p, a, b), env)[i].row == LampAfter(init, p, env).n + (i - |Positions(p)|)
              && Lamps(init, Doghouse(p, a, b), env)[i].x
                 == env.originX - CDiv(env.size, 2)
                    - (if Lamps(init, Doghouse(p, a, b), env)[i].large then LargeShift(env.size) else 0)
    ensures forall i :: |Positions(p)| + |Positions(a)| <= i < |Lamps(init, Doghouse(p, a, b), env)| ==>
              Lamps(init, Doghouse(p, a, b), env)[i].row
                == LampAfter(init, p, env).n + (i - |Positions(p)| - |Positions(a)|)
              && Lamps(init, Doghouse(p, a, b), env)[i].x
                 == env.originX + CDiv(env.size, 2)
                    - (if Lamps(init, Doghouse(p, a, b), env)[i].large then LargeShift(env.size) else 0)
  {
    DoghouseSplit(init, p, a, b, env);
    Counting(init, p, env);
    var c1, c3 := LampAfter(init, p + [':'], env), LampAfter(init, p + [':'] + a + [';'], env);
    RunWithoutGrouping(c1, a, env);
    RunWithoutGrouping(c3, b, env);
    var r0, r1, r2 := Lamps(init, p, env), Lamps(c1, a, env), Lamps(c3, b, env);
    assert Lamps(init, Doghouse(p, a, b), env) == r0 + r1 + r2;
    GroupedRows(r0, r1, r2, LampAfter(init, p, env).n,
                env.originX - CDiv(env.size, 2), env.originX + CDiv(env.size, 2), LargeShift(env.size));
  }

  /** Three runs of records laid end to end, the second and third counting
      rows up from `n0` in columns `xa` and `xb`. */
  lemma GroupedRows(r0: seq<LampRecord>, r1: seq<LampRecord>, r2: seq<LampRecord>, n0: int, xa: int, xb: int, shift: int)
    requires forall k :: 0 <= k < |r1| ==> r1[k].row == n0 + k && r1[k].x == xa - (if r1[k].large then shift else 0)
    requires forall k :: 0 <= k < |r2| ==> r2[k].row == n0 + k && r2[k].x == xb - (if r2[k].large then shift else 0)
    ensures forall i :: |r0| <= i < |r0| + |r1| ==>
              (r0 + r1 + r2)[i].row == n0 + (i - |r0|)
              && (r0 + r1 + r2)[i].x == xa - (if (r0 + r1 + r2)[i].large then shift else 0)
    ensures forall i :: |r0| + |r1| <= i < |r0 + r1 + r2| ==>
              (r0 + r1 + r2)[i].row == n0 + (i - |r0| - |r1|)
              && (r0 + r1 + r2)[i].x == xb - (if (r0 + r1 + r2)[i].large then shift else 0)
  {
    Concat3(r0, r1, r2);
  }

  /** The position characters of `c1 < c2`. */
  lemma ArrowPairPositions(c1: char, c2: char)
    requires IsPosition(c1) && IsPosition(c2)
    ensures Positions([c1, '<', c2]) == [c1, c2]
  {
    var t := [c1, '<'];
    assert [c1, '<', c2] == t + [c2] && t == [c1] + ['<'] && [c1] == [] + [c1];
    PositionsSnoc([], c1);
    PositionsSnoc([c1], '<');
    PositionsSnoc(t, c2);
  }

  /** The position characters of `c3 c4`. */
  lemma PairPositions(c3: char, c4: char)
    requires IsPosition(c3) && IsPosition(c4)
    ensures Positions([c3, c4]) == [c3, c4]
  {
    assert [c3, c4] == [c3] + [c4] && [c3] == [] + [c3];
    PositionsSnoc([], c3);
    PositionsSnoc([c3], c4);
  }

  /** A doghouse of the shape `c0 : c1 < c2 ; c3 c4` with five position
      characters, such as `_:_<g;_g`: five lamps, the two after `;` on the
      rows of the two after `:`. */
  lemma DoghouseExample(c0: char, c1: char, c2: char, c3: char, c4: char, env: Env)
    requires IsPosition(c0) && IsPosition(c1) && IsPosition(c2) && IsPosition(c3) && IsPosition(c4)
    ensures var rs := Lamps(LampStart(env.originX, false), Doghouse([c0], [c1, '<', c2], [c3, c4]), env);
            && |rs| == 5
            && rs[0].row == 0 && rs[1].row == 1 && rs[2].row == 2 && rs[3].row == 1 && rs[4].row == 2
  {
    var init := LampStart(env.originX, false);
    ArrowPairPositions(c1, c2);
    PairPositions(c3, c4);
    assert NoGrouping([c1, '<', c2]) && NoGrouping([c3, c4]);
    LampSnoc(init, [], c0, env);
    assert [] + [c0] == [c0];
    DoghouseRows(init, [c0], [c1, '<', c2], [c3, c4], env);
    RowBounds(init, Doghouse([c0], [c1, '<', c2], [c3, c4]), env);
  }

  // ---------------------------------------------------------------------
  // Pending modifiers apply to the next position only

  predicate NoPositions(m: string) {
    forall i :: 0 <= i < |m| ==> !IsPosition(m[i])
  }

  /** The shape the last `s` / `d` in `m` selects, `dflt` if there is none. */
  function ModShape(m: string, dflt: LampShape): LampShape {
    if m == [] then dflt
    else if m[|m| - 1] == 's' then Square
    else if m[|m| - 1] == 'd' then Diamond
    else ModShape(m[..|m| - 1], dflt)
  }

  /** The symbol the last of `< > ^ - | x` in `m` selects, `dflt` if none. */
  function ModSymbol(m: string, dflt: LampSymbol): LampSymbol {
    if m == [] then dflt
    else if IsSymbolModifier(m[|m| - 1]) then SymbolOf(m[|m| - 1])
    else ModSymbol(m[..|m| - 1], dflt)
  }

  /** The flash mode the last `f` / `F` in `m` selects, `dflt` if none. */
  function ModFlash(m: string, dflt: int): int {
    if m == [] then dflt
    else if m[|m| - 1] == 'f' then 1
    else if m[|m| - 1] == 'F' then 2
    else ModFlash(m[..|m| - 1], dflt)
  }

  /** One non-position character changes only the pending modifiers and
      the grouping state of the cursor. */
  lemma ModifierStep(c: LampCursor, ch: char, env: Env)
    requires !IsPosition(ch)
    ensures LampStep(c, ch, env).shape == (if ch == 's' then Square else if ch == 'd' then Diamond else c.shape)
    ensures LampStep(c, ch, env).symbol == (if IsSymbolModifier(ch) then SymbolOf(ch) else c.symbol)
    ensures LampStep(c, ch, env).nextFlash == (if ch == 'f' then 1 else if ch == 'F' then 2 else c.nextFlash)
    ensures LampStep(c, ch, env).nextLarge == (c.nextLarge || ch == 'l')
    ensures LampStep(c, ch, env).stateI == c.stateI
    ensures LampStep(c, ch, env).largeCount == c.largeCount
  {
  }

  /** A run of non-position characters emits nothing, consumes no state
      character and only sets the pending shape, symbol, flash and large
      marker (besides moving the cursor for grouping tokens). */
  lemma {:induction false} ModifierRun(cur: LampCursor, m: string, env: Env)
    requires NoPositions(m)
    ensures Lamps(cur, m, env) == []
    ensures LampAfter(cur, m, env).shape == ModShape(m, cur.shape)
    ensures LampAfter(cur, m, env).symbol == ModSymbol(m, cur.symbol)
    ensures LampAfter(cur, m, env).nextFlash == ModFlash(m, cur.nextFlash)
    ensures LampAfter(cur, m, env).nextLarge == (cur.nextLarge || 'l' in m)
    ensures LampAfter(cur, m, env).stateI == cur.stateI
    ensures LampAfter(cur, m, env).largeCount == cur.largeCount
  {
    if m != [] {
      var pre, c := m[..|m| - 1], m[|m| - 1];
      assert m == pre + [c];
      assert NoPositions(pre) by {
        forall i | 0 <= i < |pre| ensures pre[i] == m[i] { }
      }
      ModifierRun(cur, pre, env);
      ModifierSnoc(cur, pre, c, env);
      ModifierStep(LampAfter(cur, pre, env), c, env);
      assert ('l' in m) == ('l' in pre || c == 'l');
    }
  }

  /** One non-position character: the cursor steps, nothing is emitted. */
  lemma ModifierSnoc(init: LampCursor, s: string, c: char, env: Env)
    requires !IsPosition(c)
    ensures LampAfter(init, s + [c], env) == LampStep(LampAfter(init, s, env), c, env)
    ensures Lamps(init, s + [c], env) == Lamps(init, s, env)
  {
    assert (s + [c])[..|s|] == s;
  }

  /** A position character clears every pending modifier. */
  lemma AfterPosition(init: LampCursor, p: string, env: Env)
    requires p != [] && IsPosition(p[|p| - 1])
    ensures |Lamps(init, p, env)| == |Positions(p)|
    ensures LampAfter(init, p, env).stateI == init.stateI + |Positions(p)|
    ensures LampAfter(init, p, env).shape == Circle && LampAfter(init, p, env).symbol == NoSymbol
    ensures LampAfter(init, p, env).nextFlash == 0 && !LampAfter(init, p, env).nextLarge
  {
    var pre, last := p[..|p| - 1], p[|p| - 1];
    assert p == pre + [last];
    LampSnoc(init, pre, last, env);
    Counting(init, p, env);
  }

  /** One position character: one record is emitted. */
  lemma EmitSnoc(init: LampCursor, s: string, c: char, env: Env)
    requires IsPosition(c)
    ensures Lamps(init, s + [c], env) == Lamps(init, s, env) + [Emit(LampAfter(init, s, env), c, env)]
  {
    assert (s + [c])[..|s|] == s;
  }

  /** No modifier is pending after `p`: it ends with a position, or it is
      empty and the cursor starts clear (as a lamp pass does when the margin
      pass left no large marker). */
  predicate PendingCleared(init: LampCursor, p: string) {
    if p == [] then init.shape == Circle && init.symbol == NoSymbol && init.nextFlash == 0 && !init.nextLarge
    else IsPosition(p[|p| - 1])
  }

  /** The cursor after a position (or at a clear start) and a run of
      modifiers holds exactly the modifiers of the run. */
  lemma PendingCursor(init: LampCursor, p: string, m: string, env: Env)
    requires PendingCleared(init, p) && NoPositions(m)
    ensures |Lamps(init, p, env)| == |Positions(p)|
    ensures Lamps(init, p + m, env) == Lamps(init, p, env)
    ensures LampAfter(init, p + m, env).shape == ModShape(m, Circle)
    ensures LampAfter(init, p + m, env).symbol == ModSymbol(m, NoSymbol)
    ensures LampAfter(init, p + m, env).nextFlash == ModFlash(m, 0)
    ensures LampAfter(init, p + m, env).nextLarge == ('l' in m)
    ensures LampAfter(init, p + m, env).stateI == init.stateI + |Positions(p)|
  {
    if p == [] {
      assert p + m == m;
      ModifierRun(init, m, env);
    } else {
      AfterPosition(init, p, env);
      var c0 := LampAfter(init, p, env);
      LampAppend(init, p, m, env);
      ModifierRun(c0, m, env);
      assert Lamps(init, p, env) + [] == Lamps(init, p, env);
    }
  }

  /** The modifiers `m` written before a position decide its shape, symbol,
      size and flashing alone: the position before them cleared every
      pending modifier, and so does a clear start (so in `<r…` the first
      lamp gets the arrow). */
  lemma PendingAppliesOnce(init: LampCursor, p: string, m: string, c: char, env: Env)
    requires PendingCleared(init, p) && NoPositions(m) && IsPosition(c)
    ensures |Lamps(init, p + m + [c], env)| == |Positions(p)| + 1
    ensures Lamps(init, p + m + [c], env)[..|Positions(p)|] == Lamps(init, p, env)
    ensures Lamps(init, p + m + [c], env)[|Positions(p)|].shape == ModShape(m, Circle)
    ensures Lamps(init, p + m + [c], env)[|Positions(p)|].symbol == ModSymbol(m, NoSymbol)
    ensures Lamps(init, p + m + [c], env)[|Positions(p)|].large == ('l' in m)
    ensures Lamps(init, p + m + [c], env)[|Positions(p)|].on
            == (StateChar(env.state, init.stateI + |Positions(p)|) != '_'
                && !FlashDark(EffectiveFlash(StateChar(env.state, init.stateI + |Positions(p)|), ModFlash(m, 0)),
                              env.time))
  {
    PendingCursor(init, p, m, env);
    EmitSnoc(init, p + m, c, env);
    var r0 := Lamps(init, p, env);
    var e := Emit(LampAfter(init, p + m, env), c, env);
    assert Lamps(init, p + m + [c], env) == r0 + [e];
    assert (r0 + [e])[..|r0|] == r0 && (r0 + [e])[|r0|] == e;
  }

  // ---------------------------------------------------------------------
  // The margin pass against the lamp pass

  /** The backing square a lamp record sits on. */
  function BoxOf(r: LampRecord): MarginBox {
    MarginBox(r.row, r.x, r.yOffset, r.size)
  }

  function Boxes(rs: seq<LampRecord>): (bs: seq<MarginBox>)
    ensures |bs| == |rs|
  {
    if rs == [] then [] else Boxes(rs[..|rs| - 1]) + [BoxOf(rs[|rs| - 1])]
  }

  /** The part of the lamp cursor the margin pass also keeps. */
  function MarginPart(c: LampCursor): MarginCursor {
    MarginCursor(c.n, c.x, c.top, c.largeCount, c.nextLarge)
  }

  /** Both passes visit the same positions in the same order, whatever
      anchor the margin pass gives `.`. */
  lemma {:induction false} MarginCount(s: string, originX: int, size: int, dotTop: int)
    ensures |Margins(s, originX, size, dotTop)| == |Positions(s)|
  {
    if s != [] {
      MarginCount(s[..|s| - 1], originX, size, dotTop);
    }
  }

  /** With `.` clearing the anchor to -1 and the large marker cleared between
      the passes, every backing square lies exactly under its lamp. */
  lemma {:induction false} CorrectedMarginsAgree(s: string, env: Env)
    ensures MarginAfter(s, env.originX, env.size, DotAnchorIntended)
            == MarginPart(LampAfter(LampStart(env.originX, false), s, env))
    ensures Margins(s, env.originX, env.size, DotAnchorIntended)
            == Boxes(Lamps(LampStart(env.originX, false), s, env))
  {
    if s != [] {
      var pre, c := s[..|s| - 1], s[|s| - 1];
      assert s == pre + [c];
      CorrectedMarginsAgree(pre, env);
      LampSnoc(LampStart(env.originX, false), pre, c, env);
      var a := Lamps(LampStart(env.originX, false), pre, env);
      if IsPosition(c) {
        var e := Emit(LampAfter(LampStart(env.originX, false), pre, env), c, env);
        assert (a + [e])[..|a|] == a;
      } else {
        assert a + [] == a;
      }
    }
  }

  lemma PositionsSnoc(s: string, c: char)
    ensures Positions(s + [c]) == Positions(s) + (if IsPosition(c) then [c] else [])
  {
    assert (s + [c])[..|s|] == s;
  }

  lemma MarginSnoc(s: string, c: char, originX: int, size: int, dotTop: int)
    ensures MarginAfter(s + [c], originX, size, dotTop)
            == MarginStep(MarginAfter(s, originX, size, dotTop), c, originX, size, dotTop)
    ensures Margins(s + [c], originX, size, dotTop)
            == Margins(s, originX, size, dotTop)
               + (if IsPosition(c) then [Box(MarginAfter(s, originX, size, dotTop), size)] else [])
  {
    assert (s + [c])[..|s|] == s;
  }

  lemma BoxesSnoc(rs: seq<LampRecord>, r: LampRecord)
    ensures Boxes(rs + [r]) == Boxes(rs) + [BoxOf(r)]
  {
    assert (rs + [r])[..|rs|] == rs;
  }

  /** As written, `.` followed by `:` in the margin pass always restarts
      the backing squares at row 0, however many rows came before. */
  lemma {:induction false} MarginsAfterDotAnchor(p: string, a: string, originX: int, size: int)
    requires NoGrouping(a)
    ensures |Margins(p + ['.', ':'] + a, originX, size, DotAnchorAsWritten)| == |Positions(p)| + |Positions(a)|
    ensures MarginAfter(p + ['.', ':'] + a, originX, size, DotAnchorAsWritten).n == |Positions(a)|
    ensures MarginAfter(p + ['.', ':'] + a, originX, size, DotAnchorAsWritten).top == 0
    ensures forall i :: |Positions(p)| <= i < |Positions(p)| + |Positions(a)| ==>
              Margins(p + ['.', ':'] + a, originX, size, DotAnchorAsWritten)[i].row == i - |Positions(p)|
    decreases |a|
  {
    var d := DotAnchorAsWritten;
    if a == [] {
      assert p + ['.', ':'] + a == (p + ['.']) + [':'];
      MarginSnoc(p, '.', originX, size, d);
      MarginSnoc(p + ['.'], ':', originX, size, d);
      MarginCount(p, originX, size, d);
      var m := Margins(p, originX, size, d);
      assert m + [] + [] == m;
    } else {
      var a', c := a[..|a| - 1], a[|a| - 1];
      assert a == a' + [c];
      assert NoGrouping(a') by {
        forall i | 0 <= i < |a'| ensures a'[i] == a[i] { }
      }
      MarginsAfterDotAnchor(p, a', originX, size);
      var q := p + ['.', ':'] + a';
      assert p + ['.', ':'] + a == q + [c];
      MarginSnoc(q, c, originX, size, d);
      PositionsSnoc(a', c);
      var m := Margins(q, originX, size, d);
      if !IsPosition(c) {
        assert m + [] == m;
      }
    }
  }

  /** The lamp pass over the same layout: `.` clears the anchor, so `:`
      anchors at the current row and the lamps carry on counting. */
  lemma LampsAfterDotAnchor(init: LampCursor, p: string, a: string, env: Env)
    requires Fresh(init) && NoGrouping(p) && NoGrouping(a)
    ensures |Lamps(init, p + ['.', ':'] + a, env)| == |Positions(p)| + |Positions(a)|
    ensures forall i :: |Positions(p)| <= i < |Positions(p)| + |Positions(a)| ==>
              Lamps(init, p + ['.', ':'] + a, env)[i].row == i
  {
    RunWithoutGrouping(init, p, env);
    LampSnoc(init, p, '.', env);
    var s1 := p + ['.'];
    assert LampAfter(init, s1, env).top == -1;
    AnchorSnoc(init, s1, ':', env);
    var s2 := s1 + [':'];
    var c2 := LampAfter(init, s2, env);
    assert c2.n == |Positions(p)|;
    LampAppend(init, s2, a, env);
    RunWithoutGrouping(c2, a, env);
    assert p + ['.', ':'] + a == s2 + a;
    var r0, r1 := Lamps(init, p, env), Lamps(c2, a, env);
    assert Lamps(init, s1, env) == r0 + [];
    Concat3(r0, r1, []);
    assert r0 + r1 + [] == r0 + r1;
  }

  /** As written, `.` sets the margin pass's anchor to 0 while the lamp
      pass clears it to -1: in `p.:a` every position of `a` has its backing
      square `|Positions(p)|` rows above its lamp (for instance `r.:g`). */
  lemma DotAnchorMismatch(p: string, a: string, env: Env)
    requires NoGrouping(p) && NoGrouping(a)
    ensures |Margins(p + ['.', ':'] + a, env.originX, env.size, DotAnchorAsWritten)| == |Positions(p)| + |Positions(a)|
    ensures |Lamps(LampStart(env.originX, false), p + ['.', ':'] + a, env)| == |Positions(p)| + |Positions(a)|
    ensures forall i :: |Positions(p)| <= i < |Positions(p)| + |Positions(a)| ==>
              Margins(p + ['.', ':'] + a, env.originX, env.size, DotAnchorAsWritten)[i].row
              == Lamps(LampStart(env.originX, false), p + ['.', ':'] + a, env)[i].row - |Positions(p)|
  {
    MarginsAfterDotAnchor(p, a, env.originX, env.size);
    LampsAfterDotAnchor(LampStart(env.originX, false), p, a, env);
  }

  /** As written, the margin pass of a position followed by `l` draws one
      square of the ordinary size on row 0 and leaves the large marker set. */
  lemma TrailingLargeMargins(c: char, originX: int, size: int)
    requires IsPosition(c)
    ensures Margins([c, 'l'], originX, size, DotAnchorAsWritten) == [MarginBox(0, originX, 0, size)]
    ensures MarginAfter([c, 'l'], originX, size, DotAnchorAsWritten).nextLarge
  {
    MarginSnoc([], c, originX, size, DotAnchorAsWritten);
    assert [] + [c] == [c];
    MarginSnoc([c], 'l', originX, size, DotAnchorAsWritten);
    assert [c] + ['l'] == [c, 'l'];
  }

  /** A lamp pass that starts with the large marker set draws its first
      lamp large: half as big again and a quarter size left of the column,
      whatever follows it. */
  lemma TrailingLargeLamps(c: char, t: string, env: Env)
    requires IsPosition(c)
    ensures |Lamps(LampStart(env.originX, true), [c] + t, env)| >= 1
    ensures var r := Lamps(LampStart(env.originX, true), [c] + t, env)[0];
            r.large && r.row == 0 && r.yOffset == 0
            && r.size == LargeSize(env.size) && r.x == env.originX - LargeShift(env.size)
  {
    var init := LampStart(env.originX, true);
    LampSnoc(init, [], c, env);
    assert [] + [c] == [c];
    LampAppend(init, [c], t, env);
  }

  /** The `[c, 'l']` instance of `TrailingLargeLamps`, as boxes. */
  lemma TrailingLargeBox(c: char, env: Env)
    requires IsPosition(c)
    ensures Boxes(Lamps(LampStart(env.originX, true), [c, 'l'], env))
            == [MarginBox(0, env.originX - LargeShift(env.size), 0, LargeSize(env.size))]
  {
    var init := LampStart(env.originX, true);
    var e := Emit(init, c, env);
    assert Lamps(init, [c], env) == [e] by {
      EmitSnoc(init, [], c, env);
      assert [] + [c] == [c];
    }
    assert Lamps(init, [c, 'l'], env) == [e] by {
      ModifierSnoc(init, [c], 'l', env);
      assert [c] + ['l'] == [c, 'l'];
    }
    assert Boxes([e]) == [BoxOf(e)] by {
      BoxesSnoc([], e);
      assert [] + [e] == [e];
    }
  }

  /** As written, the inherited large marker also lowers the lamps after
      the first one: in `c0 c1 l` the margin pass puts the second square
      one size down, while the lamp pass, having counted its first lamp as
      large, puts the second lamp half a size further down (for size 10,
      15 against 10). */
  lemma TrailingLargeLowersNext(c0: char, c1: char, env: Env)
    requires IsPosition(c0) && IsPosition(c1)
    ensures MarginAfter([c0, c1, 'l'], env.originX, env.size, DotAnchorAsWritten).nextLarge
    ensures |Margins([c0, c1, 'l'], env.originX, env.size, DotAnchorAsWritten)| == 2
    ensures Margins([c0, c1, 'l'], env.originX, env.size, DotAnchorAsWritten)[1]
            == MarginBox(1, env.originX, env.size, env.size)
    ensures |Lamps(LampStart(env.originX, true), [c0, c1, 'l'], env)| == 2
    ensures var r := Lamps(LampStart(env.originX, true), [c0, c1, 'l'], env)[1];
            r.row == 1 && r.x == env.originX && r.size == env.size
            && r.yOffset == env.size + CDiv(env.size, 2)
  {
    var o, z := env.originX, env.size;
    MarginSnoc([], c0, o, z, DotAnchorAsWritten);
    assert [] + [c0] == [c0];
    MarginSnoc([c0], c1, o, z, DotAnchorAsWritten);
    assert [c0] + [c1] == [c0, c1];
    MarginSnoc([c0, c1], 'l', o, z, DotAnchorAsWritten);
    assert [c0, c1] + ['l'] == [c0, c1, 'l'];
    assert CDiv(0 * z, 2) == 0;
    var init := LampStart(o, true);
    LampSnoc(init, [], c0, env);
    LampSnoc(init, [c0], c1, env);
    LampSnoc(init, [c0, c1], 'l', env);
    assert CDiv(1 * z, 2) == CDiv(z, 2);
  }

  /** As written, a layout ending in `l` leaves the large marker set for the
      lamp pass: for a position `c` followed by `l` the lamp is drawn half as
      big again and shifted left, over a backing square of the ordinary size
      (for `rl` at size 10: 15 wide at x - 2 over 10 wide at x). */
  lemma TrailingLargeCarries(c: char, env: Env)
    requires IsPosition(c)
    ensures Margins([c, 'l'], env.originX, env.size, DotAnchorAsWritten) == [MarginBox(0, env.originX, 0, env.size)]
    ensures Boxes(LampPass([c, 'l'], env))
            == [MarginBox(0, env.originX - LargeShift(env.size), 0, LargeSize(env.size))]
  {
    TrailingLargeMargins(c, env.originX, env.size);
    assert LampInit([c, 'l'], env) == LampStart(env.originX, true);
    TrailingLargeBox(c, env);
  }

  // ---------------------------------------------------------------------
  // Flashing

  /** For a non-negative time the phase is 0 or 1, and the two flash modes
      are dark in complementary half-cycles; for a negative time (C's `%`
      truncates) the phase is 0 or -1 and mode 2 is never dark. */
  lemma FlashPhases(time: int)
    ensures time >= 0 ==> (FlashPhase(time) == 0 || FlashPhase(time) == 1)
    ensures time >= 0 ==> (FlashDark(1, time) <==> !FlashDark(2, time))
    ensures time < 0 ==> (FlashPhase(time) == 0 || FlashPhase(time) == -1) && !FlashDark(2, time)
    ensures FlashDark(0, time) == false
  {
    if time < 0 {
      assert CDiv(time, 750) <= 0;
    }
  }

  /** The flash pattern repeats every 1500 ms. */
  lemma {:induction false} FlashPeriod(time: int, k: nat)
    requires time >= 0
    ensures FlashPhase(time + 1500 * k) == FlashPhase(time)
  {
    var q := time / 750;
    assert CDiv(time, 750) == q;
    assert time + 1500 * k == 750 * (q + 2 * k) + time % 750;
    ModUnique(time + 1500 * k, 750, q + 2 * k, time % 750);
    assert CDiv(time + 1500 * k, 750) == q + 2 * k by {
      DivUnique(time + 1500 * k, 750, q + 2 * k, time % 750);
    }
    CRemPeriodic(q, 2, k);
  }

  /** The flash phase holds still through each 750 ms half-cycle: times
      750q to 750q + 749 are in phase q mod 2. */
  lemma FlashSlots(q: nat, r: int)
    requires 0 <= r < 750
    ensures FlashPhase(750 * q + r) == q % 2
  {
    DivUnique(750 * q + r, 750, q, r);
    CDivNonNeg(750 * q + r, 750);
    CDivNonNeg(q, 2);
  }
}
