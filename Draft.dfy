/** The earlier, smaller decoder of trafficlight.c: `light` walks a layout
    string once, drawing a lamp per colour character one row below the
    last, with a doghouse (`:` / `;`) that re-uses rows and an arrow
    modifier (`<` `>` `^`) for the next lamp; `render_frame` picks one of
    six fixed scenes from the frame counter. */
module Draft {
  import opened CInt
  import opened SeqFacts

  /** trafficlight.c's own colour enumeration; `Indeterminate` stands for
      the uninitialised colour an unknown character is drawn with. */
  datatype DraftColor = Bg | Red | Amber | Green | Off | Indeterminate

  datatype LampType = Full | LArrow | RArrow | FArrow

  /** The value the doghouse anchor starts at and that means "no anchor":
      0 as written, -1 as evidently intended. */
  datatype Sentinel = ZeroUnset | NegativeUnset

  function NoAnchor(sn: Sentinel): int {
    if sn == ZeroUnset then 0 else -1
  }

  predicate Anchored(sn: Sentinel, top: int) {
    if sn == ZeroUnset then top != 0 else top >= 0
  }

  predicate IsArrow(ch: char) { ch == '<' || ch == '>' || ch == '^' }

  predicate IsDoghouse(ch: char) { ch == ':' || ch == ';' }

  /** Every character except the doghouse and arrow tokens draws a lamp. */
  predicate IsDraftPosition(ch: char) { !IsArrow(ch) && !IsDoghouse(ch) }

  function ArrowType(ch: char): LampType
    requires IsArrow(ch)
  {
    if ch == '<' then LArrow else if ch == '>' then RArrow else FArrow
  }

  function DraftColorOf(ch: char): DraftColor {
    match ch
    case 'r' => Red
    case 'y' => Amber
    case 'a' => Amber
    case 'g' => Green
    case '_' => Off
    case _ => Indeterminate
  }

  predicate IsDraftColor(ch: char) {
    ch == 'r' || ch == 'y' || ch == 'a' || ch == 'g' || ch == '_'
  }

  /** The light's placement: its column, its top and its lamp size. */
  datatype Frame = Frame(originX: int, y: int, size: int)

  datatype DraftCursor = DraftCursor(n: int, x: int, top: int, next: LampType)

  /** One `lamp` call: column, top, size, colour and type, with the row
      `n` its top was computed from. */
  datatype DraftLamp = DraftLamp(row: int, x: int, y: int, size: int, color: DraftColor, kind: LampType)

  function DraftStart(originX: int, sn: Sentinel): DraftCursor {
    DraftCursor(0, originX, NoAnchor(sn), Full)
  }

  function DraftStep(c: DraftCursor, ch: char, fr: Frame, sn: Sentinel): DraftCursor {
    if IsDoghouse(ch) then
      var x := if ch == ':' then fr.originX - CDiv(fr.size, 2) else fr.originX + CDiv(fr.size, 2);
      if Anchored(sn, c.top) then c.(n := c.top, x := x) else c.(top := c.n, x := x)
    else if IsArrow(ch) then c.(next := ArrowType(ch))
    else c.(n := c.n + 1, next := Full)
  }

  function DraftAfter(init: DraftCursor, s: string, fr: Frame, sn: Sentinel): DraftCursor {
    if s == [] then init else DraftStep(DraftAfter(init, s[..|s| - 1], fr, sn), s[|s| - 1], fr, sn)
  }

  function DraftEmit(c: DraftCursor, ch: char, fr: Frame): DraftLamp {
    DraftLamp(c.n, c.x, fr.y + fr.size * c.n, fr.size, DraftColorOf(ch), c.next)
  }

  function DraftLamps(init: DraftCursor, s: string, fr: Frame, sn: Sentinel): seq<DraftLamp> {
    if s == [] then []
    else
      var pre, ch := s[..|s| - 1], s[|s| - 1];
      DraftLamps(init, pre, fr, sn) + if IsDraftPosition(ch) then [DraftEmit(DraftAfter(init, pre, fr, sn), ch, fr)] else []
  }

  function DraftPositions(s: string): seq<char> {
    if s == [] then []
    else DraftPositions(s[..|s| - 1]) + if IsDraftPosition(s[|s| - 1]) then [s[|s| - 1]] else []
  }

  /** The characters warned about, once per occurrence. */
  function DraftUnknown(s: string): seq<char> {
    if s == [] then []
    else
      var ch := s[|s| - 1];
      DraftUnknown(s[..|s| - 1]) + if IsDraftPosition(ch) && !IsDraftColor(ch) then [ch] else []
  }

  /** `light` of trafficlight.c, as written (0 is the "no anchor" value). */
  method DraftLight(fr: Frame, colors: string) returns (lamps: seq<DraftLamp>, warnings: seq<char>)
    ensures lamps == DraftLamps(DraftStart(fr.originX, ZeroUnset), colors, fr, ZeroUnset)
    ensures warnings == DraftUnknown(colors)
  {
    ghost var init := DraftStart(fr.originX, ZeroUnset);
    var nextLamp := Full;
    var x := fr.originX;
    var doghouseTop := 0;
    var n := 0;
    lamps, warnings := [], [];
    var i := 0;
    while i < |colors|
      invariant 0 <= i <= |colors|
      invariant DraftCursor(n, x, doghouseTop, nextLamp) == DraftAfter(init, colors[..i], fr, ZeroUnset)
      invariant lamps == DraftLamps(init, colors[..i], fr, ZeroUnset)
      invariant warnings == DraftUnknown(colors[..i])
    {
      var c := colors[i];
      assert colors[..i + 1][..i] == colors[..i];
      i := i + 1;
      var color := Indeterminate;
      match c {
        case 'r' => color := Red;
        case 'y' | 'a' => color := Amber;
        case 'g' => color := Green;
        case '_' => color := Off;
        case ':' =>
          if doghouseTop != 0 { n := doghouseTop; } else { doghouseTop := n; }
          x := fr.originX - CDiv(fr.size, 2);
          continue;
        case ';' =>
          if doghouseTop != 0 { n := doghouseTop; } else { doghouseTop := n; }
          x := fr.originX + CDiv(fr.size, 2);
          continue;
        case '<' => nextLamp := LArrow; continue;
        case '>' => nextLamp := RArrow; continue;
        case '^' => nextLamp := FArrow; continue;
        case _ => warnings := warnings + [c];
      }
      lamps := lamps + [DraftLamp(n, x, fr.y + fr.size * n, fr.size, color, nextLamp)];
      nextLamp := Full;
      n := n + 1;
    }
    assert colors[..i] == colors;
  }

  // ---------------------------------------------------------------------
  // Properties of the draft decoder

  lemma DraftSnoc(init: DraftCursor, s: string, c: char, fr: Frame, sn: Sentinel)
    ensures DraftAfter(init, s + [c], fr, sn) == DraftStep(DraftAfter(init, s, fr, sn), c, fr, sn)
    ensures DraftLamps(init, s + [c], fr, sn)
            == DraftLamps(init, s, fr, sn) + (if IsDraftPosition(c) then [DraftEmit(DraftAfter(init, s, fr, sn), c, fr)] else [])
    ensures DraftPositions(s + [c]) == DraftPositions(s) + (if IsDraftPosition(c) then [c] else [])
  {
    assert (s + [c])[..|s|] == s;
  }

  lemma {:induction false} DraftAppend(init: DraftCursor, s: string, t: string, fr: Frame, sn: Sentinel)
    ensures DraftAfter(init, s + t, fr, sn) == DraftAfter(DraftAfter(init, s, fr, sn), t, fr, sn)
    ensures DraftLamps(init, s + t, fr, sn) == DraftLamps(init, s, fr, sn) + DraftLamps(DraftAfter(init, s, fr, sn), t, fr, sn)
    ensures DraftPositions(s + t) == DraftPositions(s) + DraftPositions(t)
    decreases |t|
  {
    if t == [] {
      assert s + t == s;
      assert DraftLamps(init, s, fr, sn) + [] == DraftLamps(init, s, fr, sn);
      assert DraftPositions(s) + [] == DraftPositions(s);
    } else {
      var t', c := t[..|t| - 1], t[|t| - 1];
      assert t == t' + [c];
      assert s + t == (s + t') + [c];
      DraftAppend(init, s, t', fr, sn);
      DraftSnoc(init, s + t', c, fr, sn);
      DraftSnoc(DraftAfter(init, s, fr, sn), t', c, fr, sn);
    }
  }

  /** One lamp per character other than `: ; < > ^`, in order, each of the
      light's size and of the colour its character names (indeterminate for
      an unknown one, which is also warned about). */
  lemma {:induction false} DraftCounting(init: DraftCursor, s: string, fr: Frame, sn: Sentinel)
    ensures |DraftLamps(init, s, fr, sn)| == |DraftPositions(s)|
    ensures forall k :: 0 <= k < |DraftPositions(s)| ==>
              DraftLamps(init, s, fr, sn)[k].color == DraftColorOf(DraftPositions(s)[k])
              && DraftLamps(init, s, fr, sn)[k].size == fr.size
              && DraftLamps(init, s, fr, sn)[k].y == fr.y + fr.size * DraftLamps(init, s, fr, sn)[k].row
  {
    if s != [] {
      var pre, c := s[..|s| - 1], s[|s| - 1];
      assert s == pre + [c];
      DraftCounting(init, pre, fr, sn);
      DraftSnoc(init, pre, c, fr, sn);
    }
  }

  predicate NoDoghouse(s: string) {
    forall i :: 0 <= i < |s| ==> !IsDoghouse(s[i])
  }

  /** Without doghouse tokens each lamp is one size below the previous one,
      in the cursor's column. */
  lemma {:induction false} DraftRun(cur: DraftCursor, s: string, fr: Frame, sn: Sentinel)
    requires NoDoghouse(s)
    ensures DraftAfter(cur, s, fr, sn).n == cur.n + |DraftPositions(s)|
    ensures DraftAfter(cur, s, fr, sn).x == cur.x && DraftAfter(cur, s, fr, sn).top == cur.top
    ensures |DraftLamps(cur, s, fr, sn)| == |DraftPositions(s)|
    ensures forall k :: 0 <= k < |DraftLamps(cur, s, fr, sn)| ==>
              DraftLamps(cur, s, fr, sn)[k].row == cur.n + k
              && DraftLamps(cur, s, fr, sn)[k].x == cur.x
  {
    if s != [] {
      var pre, c := s[..|s| - 1], s[|s| - 1];
      assert s == pre + [c];
      assert NoDoghouse(pre) by {
        forall i | 0 <= i < |pre| ensures pre[i] == s[i] { }
      }
      DraftRun(cur, pre, fr, sn);
      DraftSnoc(cur, pre, c, fr, sn);
    }
  }

  /** The type the last arrow in `m` selects, `Full` if there is none. */
  function LastArrow(m: string): LampType {
    if m == [] then Full
    else if IsArrow(m[|m| - 1]) then ArrowType(m[|m| - 1])
    else LastArrow(m[..|m| - 1])
  }

  predicate NoDraftPositions(m: string) {
    forall i :: 0 <= i < |m| ==> !IsDraftPosition(m[i])
  }

  /** The cursor's pending type is back to full: at the start of a layout
      (`next_lamp` starts full) or right after a lamp. */
  predicate TypeReset(init: DraftCursor, p: string) {
    if p == [] then init.next == Full else IsDraftPosition(p[|p| - 1])
  }

  /** An arrow applies to the next lamp only: at the start and after a lamp
      the type is full, and the lamp after a run of tokens gets the last
      arrow of the run (so the first lamp of `<r__` is a left arrow). */
  lemma {:induction false} ArrowOnce(init: DraftCursor, p: string, m: string, c: char, fr: Frame, sn: Sentinel)
    requires TypeReset(init, p) && NoDraftPositions(m) && IsDraftPosition(c)
    ensures |DraftLamps(init, p + m + [c], fr, sn)| == |DraftPositions(p)| + 1
    ensures DraftLamps(init, p + m + [c], fr, sn)[|DraftPositions(p)|].kind == LastArrow(m)
  {
    DraftCounting(init, p + m + [c], fr, sn);
    DraftAppend(init, p + m, [c], fr, sn);
    DraftAppend(init, p, m, fr, sn);
    DraftSnoc(init, p + m, c, fr, sn);
    KindAfterRun(init, p, m, fr, sn);
    DraftCounting(init, p, fr, sn);
    var r0 := DraftLamps(init, p, fr, sn);
    assert DraftLamps(init, p + m, fr, sn) == r0 by {
      ArrowRunEmits(DraftAfter(init, p, fr, sn), m, fr, sn);
      assert r0 + [] == r0;
    }
  }

  lemma {:induction false} ArrowRunEmits(cur: DraftCursor, m: string, fr: Frame, sn: Sentinel)
    requires NoDraftPositions(m)
    ensures DraftLamps(cur, m, fr, sn) == []
    ensures DraftPositions(m) == []
  {
    if m != [] {
      var pre, c := m[..|m| - 1], m[|m| - 1];
      assert m == pre + [c];
      assert NoDraftPositions(pre) by {
        forall i | 0 <= i < |pre| ensures pre[i] == m[i] { }
      }
      ArrowRunEmits(cur, pre, fr, sn);
      DraftSnoc(cur, pre, c, fr, sn);
    }
  }

  lemma {:induction false} KindAfterRun(init: DraftCursor, p: string, m: string, fr: Frame, sn: Sentinel)
    requires TypeReset(init, p) && NoDraftPositions(m)
    ensures DraftAfter(init, p + m, fr, sn).next == LastArrow(m)
    decreases |m|
  {
    if m == [] && p == [] {
      assert p + m == [];
    } else if m == [] {
      var pre := p[..|p| - 1];
      assert p == pre + [p[|p| - 1]];
      DraftSnoc(init, pre, p[|p| - 1], fr, sn);
      assert p + m == p;
    } else {
      var m', c := m[..|m| - 1], m[|m| - 1];
      assert m == m' + [c];
      assert NoDraftPositions(m') by {
        forall i | 0 <= i < |m'| ensures m'[i] == m[i] { }
      }
      KindAfterRun(init, p, m', fr, sn);
      assert p + m == (p + m') + [c];
      DraftSnoc(init, p + m', c, fr, sn);
    }
  }

  function DraftDoghouse(p: string, a: string, b: string): string {
    p + [':'] + a + [';'] + b
  }

  /** The row the lamps after `;` resume at, `n` lamps before `:` and `m`
      between `:` and `;`: the anchor when the sentinel lets it count as
      set, and otherwise the row the `:` group ended on. */
  function ResumeRow(sn: Sentinel, n: int, m: int): int {
    if Anchored(sn, n) then n else n + m
  }

  lemma DraftDoghouseSplit(p: string, a: string, b: string, fr: Frame, sn: Sentinel)
    requires NoDoghouse(p) && NoDoghouse(a)
    ensures DraftLamps(DraftStart(fr.originX, sn), DraftDoghouse(p, a, b), fr, sn)
            == DraftLamps(DraftStart(fr.originX, sn), p, fr, sn)
               + DraftLamps(DraftAfter(DraftStart(fr.originX, sn), p + [':'], fr, sn), a, fr, sn)
               + DraftLamps(DraftAfter(DraftStart(fr.originX, sn), p + [':'] + a + [';'], fr, sn), b, fr, sn)
    ensures DraftAfter(DraftStart(fr.originX, sn), p + [':'], fr, sn).n == |DraftPositions(p)|
    ensures DraftAfter(DraftStart(fr.originX, sn), p + [':'], fr, sn).x == fr.originX - CDiv(fr.size, 2)
    ensures DraftAfter(DraftStart(fr.originX, sn), p + [':'] + a + [';'], fr, sn).n
            == ResumeRow(sn, |DraftPositions(p)|, |DraftPositions(a)|)
    ensures DraftAfter(DraftStart(fr.originX, sn), p + [':'] + a + [';'], fr, sn).x == fr.originX + CDiv(fr.size, 2)
  {
    var init := DraftStart(fr.originX, sn);
    DraftRun(init, p, fr, sn);
    DraftSnoc(init, p, ':', fr, sn);
    var s1 := p + [':'];
    var c1 := DraftAfter(init, s1, fr, sn);
    assert c1.top == |DraftPositions(p)|;
    DraftAppend(init, s1, a, fr, sn);
    DraftRun(c1, a, fr, sn);
    var s2 := s1 + a;
    DraftSnoc(init, s2, ';', fr, sn);
    var s3 := s2 + [';'];
    DraftAppend(init, s3, b, fr, sn);
    assert DraftDoghouse(p, a, b) == s3 + b;
    var r0 := DraftLamps(init, p, fr, sn);
    assert DraftLamps(init, s1, fr, sn) == r0 + [];
    assert DraftLamps(init, s3, fr, sn) == DraftLamps(init, s2, fr, sn) + [];
  }

  /** The doghouse of the draft decoder: the lamps after `:` go down from the
      current row half a size left of the light; those after `;` go half a
      size right, from the row `ResumeRow` gives. */
  lemma DraftDoghouseRows(p: string, a: string, b: string, fr: Frame, sn: Sentinel)
    requires NoDoghouse(p) && NoDoghouse(a) && NoDoghouse(b)
    ensures |DraftLamps(DraftStart(fr.originX, sn), DraftDoghouse(p, a, b), fr, sn)|
            == |DraftPositions(p)| + |DraftPositions(a)| + |DraftPositions(b)|
    ensures forall i :: |DraftPositions(p)| <= i < |DraftPositions(p)| + |DraftPositions(a)| ==>
              DraftLamps(DraftStart(fr.originX, sn), DraftDoghouse(p, a, b), fr, sn)[i].row == i
              && DraftLamps(DraftStart(fr.originX, sn), DraftDoghouse(p, a, b), fr, sn)[i].x
                 == fr.originX - CDiv(fr.size, 2)
    ensures forall i :: |DraftPositions(p)| + |DraftPositions(a)| <= i
                        < |DraftPositions(p)| + |DraftPositions(a)| + |DraftPositions(b)| ==>
              DraftLamps(DraftStart(fr.originX, sn), DraftDoghouse(p, a, b), fr, sn)[i].row
                == ResumeRow(sn, |DraftPositions(p)|, |DraftPositions(a)|) + (i - |DraftPositions(p)| - |DraftPositions(a)|)
              && DraftLamps(DraftStart(fr.originX, sn), DraftDoghouse(p, a, b), fr, sn)[i].x
                 == fr.originX + CDiv(fr.size, 2)
  {
    var init := DraftStart(fr.originX, sn);
    DraftDoghouseSplit(p, a, b, fr, sn);
    DraftRun(init, p, fr, sn);
    var c1, c3 := DraftAfter(init, p + [':'], fr, sn), DraftAfter(init, p + [':'] + a + [';'], fr, sn);
    DraftRun(c1, a, fr, sn);
    DraftRun(c3, b, fr, sn);
    var r0, r1, r2 := DraftLamps(init, p, fr, sn), DraftLamps(c1, a, fr, sn), DraftLamps(c3, b, fr, sn);
    assert DraftLamps(init, DraftDoghouse(p, a, b), fr, sn) == r0 + r1 + r2;
    DraftGroupedRows(r0, r1, r2, c1.n, c3.n, fr.originX - CDiv(fr.size, 2), fr.originX + CDiv(fr.size, 2));
  }

  /** Three runs of lamps laid end to end, the second counting rows up from
      `n1` in column `xa`, the third from `n2` in column `xb`. */
  lemma DraftGroupedRows(r0: seq<DraftLamp>, r1: seq<DraftLamp>, r2: seq<DraftLamp>, n1: int, n2: int, xa: int, xb: int)
    requires forall k :: 0 <= k < |r1| ==> r1[k].row == n1 + k && r1[k].x == xa
    requires forall k :: 0 <= k < |r2| ==> r2[k].row == n2 + k && r2[k].x == xb
    ensures |r0 + r1 + r2| == |r0| + |r1| + |r2|
    ensures forall i :: |r0| <= i < |r0| + |r1| ==>
              (r0 + r1 + r2)[i].row == n1 + (i - |r0|) && (r0 + r1 + r2)[i].x == xa
    ensures forall i :: |r0| + |r1| <= i < |r0| + |r1| + |r2| ==>
              (r0 + r1 + r2)[i].row == n2 + (i - |r0| - |r1|) && (r0 + r1 + r2)[i].x == xb
  {
    Concat3(r0, r1, r2);
  }

  /** With -1 as the "no anchor" value the lamps after `;` always share
      the rows of the lamps after `:`, one for one. */
  lemma DoghouseIntended(p: string, a: string, b: string, fr: Frame)
    requires NoDoghouse(p) && NoDoghouse(a) && NoDoghouse(b)
    ensures |DraftLamps(DraftStart(fr.originX, NegativeUnset), DraftDoghouse(p, a, b), fr, NegativeUnset)|
            == |DraftPositions(p)| + |DraftPositions(a)| + |DraftPositions(b)|
    ensures forall i :: |DraftPositions(p)| <= i < |DraftPositions(p)| + |DraftPositions(a)|
                        && i < |DraftPositions(p)| + |DraftPositions(b)| ==>
              DraftLamps(DraftStart(fr.originX, NegativeUnset), DraftDoghouse(p, a, b), fr, NegativeUnset)[i].row
              == DraftLamps(DraftStart(fr.originX, NegativeUnset), DraftDoghouse(p, a, b), fr, NegativeUnset)
                   [i + |DraftPositions(a)|].row
  {
    DraftDoghouseRows(p, a, b, fr, NegativeUnset);
  }

  /** As written, a doghouse that opens on row 0 takes its anchor for "no
      anchor": the lamps after `;` carry on below those after `:` instead of
      sharing their rows (for instance `:_g;_g` puts its lamps on rows 0 to
      3). */
  lemma ZeroAnchorLost(a: string, b: string, fr: Frame)
    requires NoDoghouse(a) && NoDoghouse(b)
    ensures |DraftLamps(DraftStart(fr.originX, ZeroUnset), DraftDoghouse([], a, b), fr, ZeroUnset)|
            == |DraftPositions(a)| + |DraftPositions(b)|
    ensures forall i :: 0 <= i < |DraftPositions(a)| + |DraftPositions(b)| ==>
              DraftLamps(DraftStart(fr.originX, ZeroUnset), DraftDoghouse([], a, b), fr, ZeroUnset)[i].row == i
  {
    assert DraftPositions([]) == [];
    DraftDoghouseRows([], a, b, fr, ZeroUnset);
  }

  /** The written and the intended decoder are in step: same row, column and
      pending type, on a row past 0, the anchor either unset in both (0 and
      -1) or the same row. */
  predicate InStep(w: DraftCursor, v: DraftCursor) {
    w.n == v.n && w.x == v.x && w.next == v.next && w.n > 0
    && ((w.top == 0 && v.top == -1) || (w.top > 0 && w.top == v.top))
  }

  lemma {:induction false} SentinelsInStep(w: DraftCursor, v: DraftCursor, t: string, fr: Frame)
    requires InStep(w, v)
    ensures InStep(DraftAfter(w, t, fr, ZeroUnset), DraftAfter(v, t, fr, NegativeUnset))
    ensures DraftLamps(w, t, fr, ZeroUnset) == DraftLamps(v, t, fr, NegativeUnset)
  {
    if t != [] {
      var pre, c := t[..|t| - 1], t[|t| - 1];
      assert t == pre + [c];
      SentinelsInStep(w, v, pre, fr);
      DraftSnoc(w, pre, c, fr, ZeroUnset);
      DraftSnoc(v, pre, c, fr, NegativeUnset);
    }
  }

  /** Without doghouse tokens the sentinel is never looked at. */
  lemma {:induction false} SentinelUnused(s: string, fr: Frame)
    requires NoDoghouse(s)
    ensures DraftAfter(DraftStart(fr.originX, ZeroUnset), s, fr, ZeroUnset)
            == DraftAfter(DraftStart(fr.originX, NegativeUnset), s, fr, NegativeUnset).(top := 0)
    ensures DraftLamps(DraftStart(fr.originX, ZeroUnset), s, fr, ZeroUnset)
            == DraftLamps(DraftStart(fr.originX, NegativeUnset), s, fr, NegativeUnset)
  {
    if s != [] {
      var pre, c := s[..|s| - 1], s[|s| - 1];
      assert s == pre + [c];
      assert NoDoghouse(pre) by {
        forall i | 0 <= i < |pre| ensures pre[i] == s[i] { }
      }
      SentinelUnused(pre, fr);
      DraftSnoc(DraftStart(fr.originX, ZeroUnset), pre, c, fr, ZeroUnset);
      DraftSnoc(DraftStart(fr.originX, NegativeUnset), pre, c, fr, NegativeUnset);
    }
  }

  /** The 0 sentinel only matters for a doghouse opened on row 0: once a
      lamp has been drawn before the first `:` or `;`, the written decoder
      draws exactly what the intended one does. */
  lemma SentinelHarmlessAfterFirstLamp(p: string, t: string, fr: Frame)
    requires NoDoghouse(p) && |DraftPositions(p)| > 0
    ensures DraftLamps(DraftStart(fr.originX, ZeroUnset), p + t, fr, ZeroUnset)
            == DraftLamps(DraftStart(fr.originX, NegativeUnset), p + t, fr, NegativeUnset)
  {
    var w0, v0 := DraftStart(fr.originX, ZeroUnset), DraftStart(fr.originX, NegativeUnset);
    SentinelUnused(p, fr);
    DraftRun(v0, p, fr, NegativeUnset);
    DraftAppend(w0, p, t, fr, ZeroUnset);
    DraftAppend(v0, p, t, fr, NegativeUnset);
    SentinelsInStep(DraftAfter(w0, p, fr, ZeroUnset), DraftAfter(v0, p, fr, NegativeUnset), t, fr);
  }

  // ---------------------------------------------------------------------
  // render_frame: the scene cycle

  /** One `light` call of a scene. */
  datatype LightCall = LightCall(fr: Frame, colors: string)

  const L1 := Frame(100, 100, 50)
  const L2 := Frame(200, 100, 50)
  const L3 := Frame(300, 100, 50)
  const L4 := Frame(400, 100, 50)
  const L6 := Frame(100, 300, 50)

  /** The six scenes, in the order of `render_frame`'s switch. */
  const Scenes: seq<seq<LightCall>> := [
    [LightCall(L1, "__g"), LightCall(L2, "r__"), LightCall(L3, "<r__"), LightCall(L4, "_:_<g;_g"), LightCall(L6, "__^y")],
    [LightCall(L1, "_y_"), LightCall(L2, "r__"), LightCall(L3, "__<g"), LightCall(L4, "_:<y_;_g"), LightCall(L6, "___")],
    [LightCall(L1, "r__"), LightCall(L2, "r__"), LightCall(L3, "_<y_"), LightCall(L4, "_:__;_g"), LightCall(L6, "__^y")],
    [LightCall(L1, "r__"), LightCall(L2, "__g"), LightCall(L3, "<r__"), LightCall(L4, "_:__;y_"), LightCall(L6, "___")],
    [LightCall(L1, "r__"), LightCall(L2, "_y_"), LightCall(L3, "<r__"), LightCall(L4, "r:__;__"), LightCall(L6, "__^y")],
    [LightCall(L1, "r__"), LightCall(L2, "r__"), LightCall(L3, "<r__"), LightCall(L4, "r:_<g;__"), LightCall(L6, "_^y_")]
  ]

  /** `(frame / 60) % 6` in C arithmetic. */
  function SceneIndex(frame: int): int {
    CRem(CDiv(frame, 60), 6)
  }

  /** The lights `render_frame` draws; an index outside the switch's cases
      (a negative frame far enough back) draws none. */
  function RenderFrame(frame: int): seq<LightCall> {
    var i := SceneIndex(frame);
    if 0 <= i < |Scenes| then Scenes[i] else []
  }

  /** Frames 60q to 60q + 59 show scene q mod 6: each scene lasts 60 frames
      and they follow one another in order. */
  lemma SceneBlocks(q: nat, r: int)
    requires 0 <= r < 60
    ensures SceneIndex(60 * q + r) == q % 6
    ensures RenderFrame(60 * q + r) == Scenes[q % 6]
  {
    DivUnique(60 * q + r, 60, q, r);
    CDivNonNeg(60 * q + r, 60);
    CDivNonNeg(q, 6);
  }

  /** The cycle repeats every 360 frames, and every frame from 0 on draws
      five lights. */
  lemma {:induction false} SceneCycle(frame: int, k: nat)
    requires frame >= 0
    ensures 0 <= SceneIndex(frame) < 6 && |RenderFrame(frame)| == 5
    ensures SceneIndex(frame + 360 * k) == SceneIndex(frame)
    ensures RenderFrame(frame + 360 * k) == RenderFrame(frame)
  {
    var q, r := frame / 60, frame % 60;
    SceneBlocks(q, r);
    assert frame + 360 * k == 60 * (q + 6 * k) + r;
    SceneBlocks(q + 6 * k, r);
    assert (q + 6 * k) % 6 == q % 6 by {
      ModUnique(q + 6 * k, 6, q / 6 + k, q % 6);
    }
  }

  /** A layout the 0 sentinel cannot affect: no doghouse at all, or a lamp
      drawn first. */
  predicate SentinelSafe(s: string) {
    NoDoghouse(s) || (|s| > 0 && IsDraftPosition(s[0]))
  }

  lemma SafeLayoutUnaffected(s: string, fr: Frame)
    requires SentinelSafe(s)
    ensures DraftLamps(DraftStart(fr.originX, ZeroUnset), s, fr, ZeroUnset)
            == DraftLamps(DraftStart(fr.originX, NegativeUnset), s, fr, NegativeUnset)
  {
    if NoDoghouse(s) {
      SentinelUnused(s, fr);
    } else {
      var p := s[..1];
      assert p == [s[0]] && p + s[1..] == s;
      assert DraftPositions(p) == [s[0]] by {
        DraftSnoc(DraftStart(0, ZeroUnset), [], s[0], fr, ZeroUnset);
        assert [] + [s[0]] == p;
      }
      SentinelHarmlessAfterFirstLamp(p, s[1..], fr);
    }
  }

  /** Every layout of the six scenes either has no doghouse or draws a lamp
      before it opens one, so each scene is drawn exactly as the intended
      decoder would draw it. */
  lemma ScenesUnaffected(i: nat, j: nat)
    requires i < |Scenes| && j < |Scenes[i]|
    ensures DraftLamps(DraftStart(Scenes[i][j].fr.originX, ZeroUnset), Scenes[i][j].colors, Scenes[i][j].fr, ZeroUnset)
            == DraftLamps(DraftStart(Scenes[i][j].fr.originX, NegativeUnset), Scenes[i][j].colors, Scenes[i][j].fr,
                          NegativeUnset)
  {
    var s := Scenes[i][j].colors;
    assert SentinelSafe(s) by {
      if s[0] == '<' {
        assert s == "<r__";
      }
    }
    SafeLayoutUnaffected(s, Scenes[i][j].fr);
  }
}
