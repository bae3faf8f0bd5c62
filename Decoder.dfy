/** The layout/state decoder of draw.c (`light`), with the drawing calls
    replaced by the records they would draw.  A light's layout string is
    walked twice: a margin pass that places the dark backing square of every
    lamp position, and a lamp pass that pairs each position with one
    character of the current stage's state string and decides its colour,
    whether it is lit, its shape and its symbol. */
module Decoder {
  import opened CInt
  import opened Signal
  import Warnings

  // ---------------------------------------------------------------------
  // Layout characters

  predicate IsSymbolModifier(ch: char) {
    ch == '<' || ch == '>' || ch == '^' || ch == '-' || ch == '|' || ch == 'x'
  }

  predicate IsShapeModifier(ch: char) { ch == 's' || ch == 'd' }

  predicate IsFlashModifier(ch: char) { ch == 'f' || ch == 'F' }

  /** The doghouse grouping tokens. */
  predicate IsGrouping(ch: char) { ch == ':' || ch == ';' || ch == '.' }

  /** A character that takes up a lamp position: anything that is not a
      grouping token, the large marker `l`, or a modifier. */
  predicate IsPosition(ch: char) {
    !IsGrouping(ch) && ch != 'l' && !IsSymbolModifier(ch) && !IsShapeModifier(ch) && !IsFlashModifier(ch)
  }

  /** The layout colours; any other position character is unknown.  These
      are the letters of `LampFold.IsColorToken`, but a layout's unknown
      character still takes a position, which a state string's does not. */
  predicate IsLayoutColor(ch: char) {
    ch == 'r' || ch == 'y' || ch == 'a' || ch == 'g' || ch == 'w' || ch == '_' || ch == '#'
  }

  function LayoutColor(ch: char): LampColor {
    match ch
    case 'r' => Red
    case 'y' => Amber
    case 'a' => Amber
    case 'g' => Green
    case 'w' => White
    case '_' => Off
    case '#' => DontPrint
    case _ => Unset
  }

  function SymbolOf(ch: char): LampSymbol
    requires IsSymbolModifier(ch)
  {
    match ch
    case '<' => LeftArrow
    case '>' => RightArrow
    case '^' => ForwardArrow
    case '-' => Horizontal
    case '|' => Vertical
    case _ => Cross
  }

  /** The position characters of a layout, in order. */
  function Positions(s: string): seq<char> {
    if s == [] then []
    else Positions(s[..|s| - 1]) + if IsPosition(s[|s| - 1]) then [s[|s| - 1]] else []
  }

  /** The unknown position characters, in order: those reported as warnings. */
  function UnknownChars(s: string): seq<char> {
    if s == [] then []
    else
      var ch := s[|s| - 1];
      UnknownChars(s[..|s| - 1]) + if IsPosition(ch) && !IsLayoutColor(ch) then [ch] else []
  }

  /** Every unknown character fits the warning table. */
  predicate UnknownInTable(s: string) {
    forall i :: 0 <= i < |s| && IsPosition(s[i]) && !IsLayoutColor(s[i]) ==> (s[i] as int) < Warnings.TableSize
  }

  // ---------------------------------------------------------------------
  // Doghouse anchoring and placement

  /** `:` and `;` put the row back to the anchor when there is one, and
      otherwise make the current row the anchor; either way row and anchor
      are equal afterwards. */
  function AnchorRow(n: int, top: int): int {
    if top >= 0 then top else n
  }

  /** What `.` sets the anchor to: 0 in the margin pass as written, -1 in
      the lamp pass (and in the corrected margin pass). */
  const DotAnchorAsWritten := 0
  const DotAnchorIntended := -1

  /** Width and offset of a large position. */
  function LargeSize(size: int): int { CDiv(size * 3, 2) }

  function LargeShift(size: int): int { CDiv(size, 4) }

  /** Vertical offset of a position: one size per row plus half a size per
      earlier large position. */
  function YOffset(size: int, n: int, largeCount: int): int {
    size * n + CDiv(largeCount * size, 2)
  }

  // ---------------------------------------------------------------------
  // Margin pass

  datatype MarginCursor = MarginCursor(n: int, x: int, top: int, largeCount: int, nextLarge: bool)

  datatype MarginBox = MarginBox(row: int, x: int, yOffset: int, size: int)

  function MarginStart(originX: int): MarginCursor {
    MarginCursor(0, originX, -1, 0, false)
  }

  function MarginStep(c: MarginCursor, ch: char, originX: int, size: int, dotTop: int): MarginCursor {
    if ch == ':' then
      c.(n := AnchorRow(c.n, c.top), top := AnchorRow(c.n, c.top), x := originX - CDiv(size, 2))
    else if ch == ';' then
      c.(n := AnchorRow(c.n, c.top), top := AnchorRow(c.n, c.top), x := originX + CDiv(size, 2))
    else if ch == '.' then c.(x := originX, top := dotTop)
    else if ch == 'l' then c.(nextLarge := true)
    else if !IsPosition(ch) then c
    else c.(n := c.n + 1, largeCount := c.largeCount + (if c.nextLarge then 1 else 0), nextLarge := false)
  }

  function Box(c: MarginCursor, size: int): MarginBox {
    MarginBox(
      c.n,
      if c.nextLarge then c.x - LargeShift(size) else c.x,
      YOffset(size, c.n, c.largeCount),
      if c.nextLarge then LargeSize(size) else size)
  }

  function MarginAfter(s: string, originX: int, size: int, dotTop: int): MarginCursor {
    if s == [] then MarginStart(originX)
    else MarginStep(MarginAfter(s[..|s| - 1], originX, size, dotTop), s[|s| - 1], originX, size, dotTop)
  }

  function Margins(s: string, originX: int, size: int, dotTop: int): seq<MarginBox> {
    if s == [] then []
    else
      var pre, ch := s[..|s| - 1], s[|s| - 1];
      Margins(pre, originX, size, dotTop) +
        if IsPosition(ch) then [Box(MarginAfter(pre, originX, size, dotTop), size)] else []
  }

  // ---------------------------------------------------------------------
  // Lamp pass

  /** The decoder's inputs besides the layout: the light's column, the lamp
      size, the current stage's state string and the time in milliseconds. */
  datatype Env = Env(originX: int, size: int, state: string, time: int)

  datatype LampCursor = LampCursor(
    n: int, x: int, top: int, largeCount: int, nextLarge: bool,
    nextFlash: int, shape: LampShape, symbol: LampSymbol, stateI: nat)

  /** One lamp as `light` would draw it (when `drawn`): at column `x`,
      `yOffset` below the light's top, `size` wide. */
  datatype LampRecord = LampRecord(
    row: int, x: int, yOffset: int, size: int, large: bool,
    color: LampColor, on: bool, shape: LampShape, symbol: LampSymbol, drawn: bool)

  /** The state character read for the `i`-th position; one past the end of
      the string is its terminating NUL. */
  function StateChar(state: string, i: nat): char {
    if i < |state| then state[i] else '\0'
  }

  /** `r y g w` in the state override the layout colour; anything else keeps it. */
  function StateColor(sc: char, layout: LampColor): LampColor {
    match sc
    case 'r' => Red
    case 'y' => Amber
    case 'g' => Green
    case 'w' => White
    case _ => layout
  }

  /** `f` / `F` in the state set the flash mode of their own position. */
  function EffectiveFlash(sc: char, pending: int): int {
    if sc == 'f' then 1 else if sc == 'F' then 2 else pending
  }

  /** The flash half-cycle: which 750 ms slot the time falls in, mod 2. */
  function FlashPhase(time: int): int {
    CRem(CDiv(time, 750), 2)
  }

  /** A flashing lamp is dark in phase 0 (mode 1) or phase 1 (mode 2). */
  predicate FlashDark(flash: int, time: int) {
    (flash == 1 && FlashPhase(time) == 0) || (flash == 2 && FlashPhase(time) == 1)
  }

  function LampStart(originX: int, nextLarge: bool): LampCursor {
    LampCursor(0, originX, -1, 0, nextLarge, 0, Circle, NoSymbol, 0)
  }

  /** The record drawn for position character `ch` at cursor `c`. */
  function Emit(c: LampCursor, ch: char, env: Env): LampRecord {
    var sc := StateChar(env.state, c.stateI);
    var color := StateColor(sc, LayoutColor(ch));
    LampRecord(
      c.n,
      if c.nextLarge then c.x - LargeShift(env.size) else c.x,
      YOffset(env.size, c.n, c.largeCount),
      if c.nextLarge then LargeSize(env.size) else env.size,
      c.nextLarge,
      color,
      sc != '_' && !FlashDark(EffectiveFlash(sc, c.nextFlash), env.time),
      c.shape,
      c.symbol,
      color != DontPrint)
  }

  function LampStep(c: LampCursor, ch: char, env: Env): LampCursor {
    if ch == ':' then
      c.(n := AnchorRow(c.n, c.top), top := AnchorRow(c.n, c.top), x := env.originX - CDiv(env.size, 2))
    else if ch == ';' then
      c.(n := AnchorRow(c.n, c.top), top := AnchorRow(c.n, c.top), x := env.originX + CDiv(env.size, 2))
    else if ch == '.' then c.(top := DotAnchorIntended, x := env.originX)
    else if ch == 'l' then c.(nextLarge := true)
    else if IsSymbolModifier(ch) then c.(symbol := SymbolOf(ch))
    else if ch == 's' then c.(shape := Square)
    else if ch == 'd' then c.(shape := Diamond)
    else if ch == 'f' then c.(nextFlash := 1)
    else if ch == 'F' then c.(nextFlash := 2)
    else c.(n := c.n + 1, largeCount := c.largeCount + (if c.nextLarge then 1 else 0),
            nextLarge := false, nextFlash := 0, shape := Circle, symbol := NoSymbol,
            stateI := c.stateI + 1)
  }

  function LampAfter(init: LampCursor, s: string, env: Env): LampCursor {
    if s == [] then init else LampStep(LampAfter(init, s[..|s| - 1], env), s[|s| - 1], env)
  }

  function Lamps(init: LampCursor, s: string, env: Env): seq<LampRecord> {
    if s == [] then []
    else
      var pre, ch := s[..|s| - 1], s[|s| - 1];
      Lamps(init, pre, env) + if IsPosition(ch) then [Emit(LampAfter(init, pre, env), ch, env)] else []
  }

  /** The lamp pass starts where the margin pass leaves the large marker:
      `light` does not clear it between the two passes. */
  function LampInit(layout: string, env: Env): LampCursor {
    LampStart(env.originX, MarginAfter(layout, env.originX, env.size, DotAnchorAsWritten).nextLarge)
  }

  /** Everything the lamp pass draws. */
  function LampPass(layout: string, env: Env): seq<LampRecord> {
    Lamps(LampInit(layout, env), layout, env)
  }

  // ---------------------------------------------------------------------
  // The procedure

  lemma {:induction false} PositionsGrow(s: string, j: nat)
    requires j <= |s|
    ensures |Positions(s[..j])| <= |Positions(s)|
    decreases |s| - j
  {
    if j < |s| {
      PositionsGrow(s, j + 1);
      assert s[..j + 1][..j] == s[..j];
    } else {
      assert s[..j] == s;
    }
  }

  lemma {:induction false} UnknownCharsInTable(s: string)
    requires UnknownInTable(s)
    ensures Warnings.InTable(UnknownChars(s))
  {
    if s != [] {
      var pre := s[..|s| - 1];
      assert UnknownInTable(pre) by {
        forall i | 0 <= i < |pre| ensures pre[i] == s[i] { }
      }
      UnknownCharsInTable(pre);
    }
  }

  /** The margin pass of `light`: one backing square per position.  Also
      returns the large marker as the pass leaves it, which the lamp pass
      inherits. */
  method MarginPass(colors: string, originX: int, size: int)
    returns (margins: seq<MarginBox>, nextLarge: bool)
    ensures margins == Margins(colors, originX, size, DotAnchorAsWritten)
    ensures nextLarge == MarginAfter(colors, originX, size, DotAnchorAsWritten).nextLarge
  {
    var doghouseTop := -1;
    var n := 0;
    var x := originX;
    var largeCount := 0;
    nextLarge := false;
    margins := [];
    var i := 0;
    while i < |colors|
      invariant 0 <= i <= |colors|
      invariant MarginCursor(n, x, doghouseTop, largeCount, nextLarge)
                == MarginAfter(colors[..i], originX, size, DotAnchorAsWritten)
      invariant margins == Margins(colors[..i], originX, size, DotAnchorAsWritten)
    {
      assert colors[..i + 1][..i] == colors[..i];
      var c := colors[i];
      i := i + 1;
      match c {
        case ':' =>
          if doghouseTop >= 0 { n := doghouseTop; } else { doghouseTop := n; }
          x := originX - CDiv(size, 2);
          continue;
        case ';' =>
          if doghouseTop >= 0 { n := doghouseTop; } else { doghouseTop := n; }
          x := originX + CDiv(size, 2);
          continue;
        case '.' =>
          x := originX;
          doghouseTop := 0;
          continue;
        case 'l' =>
          nextLarge := true;
          continue;
        case '<' => continue;
        case '>' => continue;
        case '^' => continue;
        case '-' => continue;
        case '|' => continue;
        case 'x' => continue;
        case 's' => continue;
        case 'd' => continue;
        case 'f' => continue;
        case 'F' => continue;
        case _ =>
      }
      var thisSize := size;
      var thisX := x;
      var yOffset := size * n + CDiv(largeCount * size, 2);
      if nextLarge {
        thisSize := CDiv(size * 3, 2);
        thisX := x - CDiv(size, 4);
        largeCount := largeCount + 1;
      }
      margins := margins + [MarginBox(n, thisX, yOffset, thisSize)];
      nextLarge := false;
      n := n + 1;
    }
    assert colors[..i] == colors;
  }

  /** The state character of one position: it may override the colour, turn
      the lamp dark (`_`) or set its flash mode. */
  method ReadState(sc: char, layoutColor: LampColor, pendingFlash: int)
    returns (color: LampColor, on: bool, flash: int)
    ensures color == StateColor(sc, layoutColor)
    ensures on == (sc != '_')
    ensures flash == EffectiveFlash(sc, pendingFlash)
  {
    color, on, flash := layoutColor, true, pendingFlash;
    match sc {
      case 'r' => color := Red;
      case 'y' => color := Amber;
      case 'g' => color := Green;
      case 'w' => color := White;
      case '_' => on := false;
      case '#' =>
      case 'f' => flash := 1;
      case 'F' => flash := 2;
      case _ =>
    }
  }

  /** One step of the lamp pass, unfolded. */
  lemma LampPassStep(init: LampCursor, s: string, i: nat, env: Env)
    requires i < |s| && UnknownInTable(s)
    ensures LampAfter(init, s[..i + 1], env) == LampStep(LampAfter(init, s[..i], env), s[i], env)
    ensures IsPosition(s[i]) ==>
              Lamps(init, s[..i + 1], env) == Lamps(init, s[..i], env) + [Emit(LampAfter(init, s[..i], env), s[i], env)]
    ensures !IsPosition(s[i]) ==> Lamps(init, s[..i + 1], env) == Lamps(init, s[..i], env)
    ensures |Positions(s[..i + 1])| == |Positions(s[..i])| + (if IsPosition(s[i]) then 1 else 0)
    ensures IsPosition(s[i]) && !IsLayoutColor(s[i]) ==> UnknownChars(s[..i + 1]) == UnknownChars(s[..i]) + [s[i]]
    ensures !IsPosition(s[i]) || IsLayoutColor(s[i]) ==> UnknownChars(s[..i + 1]) == UnknownChars(s[..i])
    ensures Warnings.InTable(UnknownChars(s[..i]))
    ensures (s[i] as int) < Warnings.TableSize || !IsPosition(s[i]) || IsLayoutColor(s[i])
  {
    assert s[..i + 1][..i] == s[..i];
    assert UnknownInTable(s[..i]) by {
      forall j | 0 <= j < i ensures s[..i][j] == s[j] { }
    }
    UnknownCharsInTable(s[..i]);
    if !IsPosition(s[i]) || IsLayoutColor(s[i]) {
      assert UnknownChars(s[..i]) + [] == UnknownChars(s[..i]);
    }
    if !IsPosition(s[i]) {
      assert Lamps(init, s[..i], env) + [] == Lamps(init, s[..i], env);
    }
  }

  /** One lamp position of the lamp pass: its geometry, the state character
      it consumes, and the flash rule; `layoutColor` is the colour the layout
      character `c` gave it. */
  method DrawPosition(c: char, layoutColor: LampColor, cur: LampCursor, env: Env) returns (lamp: LampRecord)
    requires layoutColor == LayoutColor(c) && cur.stateI <= |env.state|
    ensures lamp == Emit(cur, c, env)
  {
    var size, x, n := env.size, cur.x, cur.n;
    var thisSize := size;
    var thisX := x;
    var yOffset := size * n + CDiv(cur.largeCount * size, 2);
    if cur.nextLarge {
      thisSize := CDiv(size * 3, 2);
      thisX := x - CDiv(size, 4);
    }
    var sc := if cur.stateI < |env.state| then env.state[cur.stateI] else '\0';
    var color, on, nextFlash := ReadState(sc, layoutColor, cur.nextFlash);
    if nextFlash == 1 && CRem(CDiv(env.time, 750), 2) == 0 {
      on := false;
    }
    if nextFlash == 2 && CRem(CDiv(env.time, 750), 2) == 1 {
      on := false;
    }
    lamp := LampRecord(n, thisX, yOffset, thisSize, cur.nextLarge, color, on, cur.shape, cur.symbol,
                       color != DontPrint);
  }

  /** The default case of the lamp pass: `error_once` for an unknown
      layout character, extending the warnings printed so far. */
  method ReportUnknown(c: char, log: Warnings.WarningLog, ghost shown0: seq<bool>, ghost reported: seq<char>,
                       printed: seq<char>)
    returns (printed': seq<char>)
    requires log.Valid() && (c as int) < Warnings.TableSize
    requires |shown0| == Warnings.TableSize && Warnings.InTable(reported)
    requires printed == Warnings.Printed(shown0, reported)
    requires log.shown[..] == Warnings.ShownAfter(shown0, reported)
    modifies log.shown
    ensures Warnings.InTable(reported + [c])
    ensures printed' == Warnings.Printed(shown0, reported + [c])
    ensures log.shown[..] == Warnings.ShownAfter(shown0, reported + [c])
  {
    Warnings.PrintedSnoc(shown0, reported, c);
    var shownNow := log.ErrorOnce(c);
    printed' := if shownNow then printed + [c] else printed;
  }

  /** The lamp pass of `light`, starting with the large marker the margin
      pass left behind. */
  method LampPassLoop(colors: string, originX: int, size: int, states: string, time: int,
                      nextLarge0: bool, log: Warnings.WarningLog)
    returns (lamps: seq<LampRecord>, printed: seq<char>)
    requires |Positions(colors)| <= |states| + 1
    requires log.Valid() && UnknownInTable(colors)
    modifies log.shown
    ensures lamps == Lamps(LampStart(originX, nextLarge0), colors, Env(originX, size, states, time))
    ensures Warnings.InTable(UnknownChars(colors))
    ensures printed == Warnings.Printed(old(log.shown[..]), UnknownChars(colors))
    ensures log.shown[..] == Warnings.ShownAfter(old(log.shown[..]), UnknownChars(colors))
  {
    var env := Env(originX, size, states, time);
    ghost var init := LampStart(originX, nextLarge0);
    ghost var shown0 := log.shown[..];
    var doghouseTop := -1;
    var shape, symbol := Circle, NoSymbol;
    var n := 0;
    var x := originX;
    var nextFlash := 0;
    var nextLarge := nextLarge0;
    var largeCount := 0;
    var stateI := 0;
    lamps := [];
    printed := [];
    UnknownCharsInTable(colors);
    var i := 0;
    while i < |colors|
      invariant 0 <= i <= |colors|
      invariant LampCursor(n, x, doghouseTop, largeCount, nextLarge, nextFlash, shape, symbol, stateI)
                == LampAfter(init, colors[..i], env)
      invariant lamps == Lamps(init, colors[..i], env)
      invariant stateI == |Positions(colors[..i])|
      invariant Warnings.InTable(UnknownChars(colors[..i]))
      invariant printed == Warnings.Printed(shown0, UnknownChars(colors[..i]))
      invariant log.shown[..] == Warnings.ShownAfter(shown0, UnknownChars(colors[..i]))
    {
      LampPassStep(init, colors, i, env);
      PositionsGrow(colors, i + 1);
      var c := colors[i];
      ghost var unknownSoFar := UnknownChars(colors[..i]);
      i := i + 1;
      var color := Unset;
      match c {
        case 'r' | 'y' | 'a' | 'g' | 'w' | '_' | '#' => color := LayoutColor(c);
        case ':' =>
          if doghouseTop >= 0 { n := doghouseTop; } else { doghouseTop := n; }
          x := originX - CDiv(size, 2);
          continue;
        case ';' =>
          if doghouseTop >= 0 { n := doghouseTop; } else { doghouseTop := n; }
          x := originX + CDiv(size, 2);
          continue;
        case '.' =>
          doghouseTop := -1;
          x := originX;
          continue;
        case 'l' => nextLarge := true; continue;
        case '<' | '>' | '^' | '-' | '|' | 'x' => symbol := SymbolOf(c); continue;
        case 's' => shape := Square; continue;
        case 'd' => shape := Diamond; continue;
        case 'f' => nextFlash := 1; continue;
        case 'F' => nextFlash := 2; continue;
        case _ =>
          printed := ReportUnknown(c, log, shown0, unknownSoFar, printed);
      }

      assert stateI <= |states|;
      var lamp := DrawPosition(c, color, LampCursor(n, x, doghouseTop, largeCount, nextLarge, nextFlash,
                                                    shape, symbol, stateI), env);
      lamps := lamps + [lamp];
      if nextLarge {
        largeCount := largeCount + 1;
      }
      stateI := stateI + 1;
      nextLarge := false;
      nextFlash := 0;
      shape := Circle;
      symbol := NoSymbol;
      n := n + 1;
    }
    assert colors[..i] == colors;
  }

  /** `light`: the margin pass, then the lamp pass over the layout of `spec`
      with the state of stage `stageId`; unknown layout characters are
      reported through `log`. */
  method Light(originX: int, size: int, spec: Spec, stageId: int, time: int, log: Warnings.WarningLog)
    returns (margins: seq<MarginBox>, lamps: seq<LampRecord>, printed: seq<char>)
    requires 0 <= stageId < |spec.stages|
    requires |Positions(spec.layout)| <= |spec.stages[stageId].state| + 1
    requires log.Valid() && UnknownInTable(spec.layout)
    modifies log.shown
    ensures margins == Margins(spec.layout, originX, size, DotAnchorAsWritten)
    ensures lamps == LampPass(spec.layout, Env(originX, size, spec.stages[stageId].state, time))
    ensures Warnings.InTable(UnknownChars(spec.layout))
    ensures printed == Warnings.Printed(old(log.shown[..]), UnknownChars(spec.layout))
    ensures log.shown[..] == Warnings.ShownAfter(old(log.shown[..]), UnknownChars(spec.layout))
  {
    var nextLarge;
    margins, nextLarge := MarginPass(spec.layout, originX, size);
    lamps, printed := LampPassLoop(spec.layout, originX, size, spec.stages[stageId].state, time,
                                   nextLarge, log);
  }
}
