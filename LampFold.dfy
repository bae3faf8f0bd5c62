/** `fill_lamps` of trafficlight.cpp: the per-position layout summary of a
    light, folded once over the state strings of all its stages. */
module LampFold {
  import opened Signal
  import opened Wrappers
  import Resolver

  /** The seven tokens that close a lamp position in a state string.  The
      colour letters are those of `Decoder.IsLayoutColor`, but the two
      sources read other characters differently: here an unknown character
      is skipped and closes no position, while the lamp pass of draw.c
      makes it a position of unset colour. */
  predicate IsColorToken(ch: char) {
    ch == 'r' || ch == 'y' || ch == 'a' || ch == 'g' || ch == 'w' || ch == '_' || ch == '#'
  }

  function TokenColor(ch: char): LampColor
    requires IsColorToken(ch)
  {
    match ch
    case 'r' => Red
    case 'y' => Amber
    case 'a' => Amber
    case 'g' => Green
    case 'w' => White
    case '_' => Off
    case _ => DontPrint
  }

  /** The number of lamp positions a state string (prefix) closes. */
  function ColorTokens(s: string): nat {
    if s == [] then 0
    else ColorTokens(s[..|s| - 1]) + (if IsColorToken(s[|s| - 1]) then 1 else 0)
  }

  /** The shape pending after `s`: the last `s`/`d` since the last colour
      token, or a circle.  It reads a whole state-string prefix, resetting at
      each colour token; `DecoderFacts.ModShape` reads only a run of layout
      modifiers, from a given default. */
  function PendingShape(s: string): LampShape {
    if s == [] then Circle
    else
      var ch := s[|s| - 1];
      if IsColorToken(ch) then Circle
      else if ch == 's' then Square
      else if ch == 'd' then Diamond
      else PendingShape(s[..|s| - 1])
  }

  /** The symbol pending after `s`: the last of `< > ^ - | x` since the last
      colour token, or none (the state-string reading of
      `DecoderFacts.ModSymbol`). */
  function PendingSymbol(s: string): LampSymbol {
    if s == [] then NoSymbol
    else
      var ch := s[|s| - 1];
      if IsColorToken(ch) then NoSymbol
      else if ch == '<' then LeftArrow
      else if ch == '>' then RightArrow
      else if ch == '^' then ForwardArrow
      else if ch == '-' then Horizontal
      else if ch == '|' then Vertical
      else if ch == 'x' then Cross
      else PendingSymbol(s[..|s| - 1])
  }

  /** One lit occurrence of a lamp position. */
  datatype Lit = Lit(color: LampColor, shape: LampShape, symbol: LampSymbol)

  /** The merge rule for one lit occurrence: the first one fills the record;
      later ones turn a colour conflict into white and a symbol conflict
      into no symbol, and never change the shape. */
  function Merge(info: LampInfo, lit: Lit): LampInfo {
    if !info.present then LampInfo(lit.color, lit.shape, lit.symbol, true)
    else LampInfo(
      if info.color != lit.color then White else info.color,
      info.shape,
      if info.symbol != lit.symbol then NoSymbol else info.symbol,
      true)
  }

  /** The summary after folding the state string `s` into `lamps`. */
  function FoldChars(lamps: seq<LampInfo>, s: string): (r: seq<LampInfo>)
    ensures |r| == |lamps|
  {
    if s == [] then lamps
    else
      var pre, ch := s[..|s| - 1], s[|s| - 1];
      var prev := FoldChars(lamps, pre);
      var id := ColorTokens(pre);
      if IsColorToken(ch) && TokenColor(ch) != Off && id < |prev| then
        prev[id := Merge(prev[id], Lit(TokenColor(ch), PendingShape(pre), PendingSymbol(pre)))]
      else prev
  }

  /** The positions reported as changing shape while folding `s`. */
  function CharWarnings(lamps: seq<LampInfo>, s: string): seq<nat> {
    if s == [] then []
    else
      var pre, ch := s[..|s| - 1], s[|s| - 1];
      var prev := FoldChars(lamps, pre);
      var id := ColorTokens(pre);
      CharWarnings(lamps, pre) +
        if IsColorToken(ch) && TokenColor(ch) != Off && id < |prev|
           && prev[id].present && prev[id].shape != PendingShape(pre)
        then [id] else []
  }

  function FoldStages(lamps: seq<LampInfo>, stages: seq<Stage>): (r: seq<LampInfo>)
    ensures |r| == |lamps|
  {
    if stages == [] then lamps
    else FoldChars(FoldStages(lamps, stages[..|stages| - 1]), stages[|stages| - 1].state)
  }

  function StageWarnings(lamps: seq<LampInfo>, stages: seq<Stage>): seq<nat> {
    if stages == [] then []
    else
      var init := stages[..|stages| - 1];
      StageWarnings(lamps, init) + CharWarnings(FoldStages(lamps, init), stages[|stages| - 1].state)
  }

  /** The stages the scan visits (up to the empty-state terminator). */
  function Live(stages: seq<Stage>): seq<Stage> {
    stages[..Resolver.LiveCount(stages)]
  }

  lemma {:induction false} ColorTokensPrefix(s: string, j: nat)
    requires j <= |s|
    ensures ColorTokens(s[..j]) <= ColorTokens(s)
    decreases |s| - j
  {
    if j < |s| {
      ColorTokensPrefix(s, j + 1);
      assert s[..j + 1][..j] == s[..j];
    } else {
      assert s[..j] == s;
    }
  }

  /** The merge of one lit occurrence into `lamps[id]`, in place; reports
      whether the occurrence changes the recorded shape. */
  method MergeLamp(lamps: array<LampInfo>, id: nat, lit: Lit) returns (shapeChanged: bool)
    requires id < lamps.Length
    modifies lamps
    ensures lamps[..] == old(lamps[..])[id := Merge(old(lamps[id]), lit)]
    ensures shapeChanged == (old(lamps[id]).present && old(lamps[id]).shape != lit.shape)
  {
    shapeChanged := false;
    if !lamps[id].present {
      lamps[id] := LampInfo(lit.color, lit.shape, lit.symbol, true);
    } else {
      var info := lamps[id];
      if info.color != lit.color {
        info := info.(color := White);
      }
      if info.symbol != lit.symbol {
        info := info.(symbol := NoSymbol);
      }
      if info.shape != lit.shape {
        shapeChanged := true;
      }
      lamps[id] := info;
    }
  }

  /** The body of `fill_lamps` for one stage: scan its state string,
      closing one lamp position per colour token. */
  method FoldState(state: string, lamps: array<LampInfo>) returns (warnings: seq<nat>)
    requires ColorTokens(state) <= lamps.Length
    modifies lamps
    ensures lamps[..] == FoldChars(old(lamps[..]), state)
    ensures warnings == CharWarnings(old(lamps[..]), state)
  {
    ghost var before := lamps[..];
    warnings := [];
    var shape, symbol := Circle, NoSymbol;
    var lampId := 0;
    var j := 0;
    while j < |state|
      invariant 0 <= j <= |state|
      invariant lampId == ColorTokens(state[..j])
      invariant shape == PendingShape(state[..j]) && symbol == PendingSymbol(state[..j])
      invariant lamps[..] == FoldChars(before, state[..j])
      invariant warnings == CharWarnings(before, state[..j])
    {
      assert state[..j + 1][..j] == state[..j];
      var c := state[j];
      var color := Off;
      var closes := true;
      match c {
        case 'r' => color := Red;
        case 'y' => color := Amber;
        case 'a' => color := Amber;
        case 'g' => color := Green;
        case 'w' => color := White;
        case '_' => color := Off;
        case '#' => color := DontPrint;
        case '<' => symbol := LeftArrow; closes := false;
        case '>' => symbol := RightArrow; closes := false;
        case '^' => symbol := ForwardArrow; closes := false;
        case '-' => symbol := Horizontal; closes := false;
        case '|' => symbol := Vertical; closes := false;
        case 'x' => symbol := Cross; closes := false;
        case 's' => shape := Square; closes := false;
        case 'd' => shape := Diamond; closes := false;
        case _ => closes := false;
      }
      if closes {
        ColorTokensPrefix(state, j + 1);
        if color != Off {
          var changed := MergeLamp(lamps, lampId, Lit(color, shape, symbol));
          if changed {
            warnings := warnings + [lampId];
          }
        }
        shape, symbol := Circle, NoSymbol;
        lampId := lampId + 1;
      }
      j := j + 1;
    }
    assert state[..|state|] == state;
  }

  /** `fill_lamps`: fold every live stage's state string into the lamp
      array in place; returns the positions reported as changing shape. */
  method FillLamps(stages: seq<Stage>, lamps: array<LampInfo>) returns (warnings: seq<nat>)
    requires forall j :: 0 <= j < Resolver.LiveCount(stages) ==> ColorTokens(stages[j].state) <= lamps.Length
    modifies lamps
    ensures lamps[..] == FoldStages(old(lamps[..]), Live(stages))
    ensures warnings == StageWarnings(old(lamps[..]), Live(stages))
  {
    ghost var initial := lamps[..];
    warnings := [];
    var i := 0;
    while i < |stages| && stages[i].state != []
      invariant 0 <= i <= Resolver.LiveCount(stages)
      invariant lamps[..] == FoldStages(initial, stages[..i])
      invariant warnings == StageWarnings(initial, stages[..i])
    {
      var more := FoldState(stages[i].state, lamps);
      warnings := warnings + more;
      assert stages[..i + 1][..i] == stages[..i];
      i := i + 1;
    }
    assert stages[..i] == Live(stages);
  }

  // ---------------------------------------------------------------------
  // The summary, position by position

  /** The lit occurrence of position `p` in the state string `s`, if the
      `p`-th colour token of `s` is lit (anything but `_`). */
  function LitAt(s: string, p: nat): Option<Lit> {
    if s == [] then None
    else
      var pre, ch := s[..|s| - 1], s[|s| - 1];
      if IsColorToken(ch) && ColorTokens(pre) == p then
        (if TokenColor(ch) == Off then None
         else Some(Lit(TokenColor(ch), PendingShape(pre), PendingSymbol(pre))))
      else LitAt(pre, p)
  }

  function Apply(info: LampInfo, lit: Option<Lit>): LampInfo {
    match lit
    case None => info
    case Some(l) => Merge(info, l)
  }

  /** The lit occurrences of position `p`, stage by stage. */
  function LitSeq(stages: seq<Stage>, p: nat): seq<Lit> {
    if stages == [] then []
    else
      LitSeq(stages[..|stages| - 1], p) +
        match LitAt(stages[|stages| - 1].state, p)
        case Some(l) => [l]
        case None => []
  }

  /** Merge a sequence of occurrences, first to last. */
  function MergeAll(info: LampInfo, lits: seq<Lit>): LampInfo {
    if lits == [] then info else Merge(MergeAll(info, lits[..|lits| - 1]), lits[|lits| - 1])
  }

  lemma {:induction false} LitAtBeyond(s: string, p: nat)
    requires p >= ColorTokens(s)
    ensures LitAt(s, p) == None
  {
    if s != [] {
      LitAtBeyond(s[..|s| - 1], p);
    }
  }

  /** Folding one state string touches each position at most once: by its
      own lit occurrence, if it has one. */
  lemma {:induction false} FoldCharsAt(lamps: seq<LampInfo>, s: string, p: nat)
    requires p < |lamps|
    ensures FoldChars(lamps, s)[p] == Apply(lamps[p], LitAt(s, p))
  {
    if s != [] {
      var pre := s[..|s| - 1];
      FoldCharsAt(lamps, pre, p);
      if ColorTokens(pre) == p {
        LitAtBeyond(pre, p);
      }
    }
  }

  /** Folding all stages merges, at each position, that position's lit
      occurrences in stage order. */
  lemma {:induction false} FoldStagesAt(lamps: seq<LampInfo>, stages: seq<Stage>, p: nat)
    requires p < |lamps|
    ensures FoldStages(lamps, stages)[p] == MergeAll(lamps[p], LitSeq(stages, p))
  {
    if stages != [] {
      var init := stages[..|stages| - 1];
      var last := stages[|stages| - 1];
      FoldStagesAt(lamps, init, p);
      FoldCharsAt(FoldStages(lamps, init), last.state, p);
      var a := LitSeq(init, p);
      match LitAt(last.state, p)
      case None =>
        assert a + [] == a;
      case Some(l) =>
        assert (a + [l])[..|a|] == a;
    }
  }

  predicate SameColor(lits: seq<Lit>) {
    forall k :: 0 <= k < |lits| ==> lits[k].color == lits[0].color
  }

  predicate SameSymbol(lits: seq<Lit>) {
    forall k :: 0 <= k < |lits| ==> lits[k].symbol == lits[0].symbol
  }

  /** Closed form of the merge: starting from an empty record, the result
      takes the first occurrence's shape; its colour is the common colour,
      or white if two occurrences differ; its symbol is the common symbol,
      or none if two differ. */
  lemma {:induction false} MergeAllFromEmpty(info: LampInfo, lits: seq<Lit>)
    requires !info.present && |lits| > 0
    ensures MergeAll(info, lits) == LampInfo(
              if SameColor(lits) then lits[0].color else White,
              lits[0].shape,
              if SameSymbol(lits) then lits[0].symbol else NoSymbol,
              true)
  {
    var a := lits[..|lits| - 1];
    var x := lits[|lits| - 1];
    if a != [] {
      MergeAllFromEmpty(info, a);
      assert a[0] == lits[0];
      assert SameColor(lits) <==> SameColor(a) && x.color == lits[0].color by {
        if SameColor(a) && x.color == lits[0].color {
          forall k | 0 <= k < |lits| ensures lits[k].color == lits[0].color {
            if k < |a| { assert lits[k] == a[k]; }
          }
        }
        if SameColor(lits) {
          forall k | 0 <= k < |a| ensures a[k].color == a[0].color {
            assert a[k] == lits[k];
          }
        }
      }
      assert SameSymbol(lits) <==> SameSymbol(a) && x.symbol == lits[0].symbol by {
        if SameSymbol(a) && x.symbol == lits[0].symbol {
          forall k | 0 <= k < |lits| ensures lits[k].symbol == lits[0].symbol {
            if k < |a| { assert lits[k] == a[k]; }
          }
        }
        if SameSymbol(lits) {
          forall k | 0 <= k < |a| ensures a[k].symbol == a[0].symbol {
            assert a[k] == lits[k];
          }
        }
      }
    }
  }

  /** The derived layout of a light, position by position: a position lit
      in no stage keeps its zeroed record; otherwise it is marked present,
      with the first occurrence's shape, the common colour (white on a
      conflict) and the common symbol (none on a conflict). */
  lemma DerivedLayout(lamps: seq<LampInfo>, stages: seq<Stage>, p: nat)
    requires p < |lamps| && !lamps[p].present
    ensures var lits := LitSeq(stages, p);
            var r := FoldStages(lamps, stages)[p];
            && (lits == [] ==> r == lamps[p])
            && (lits != [] ==> r == LampInfo(
                  if SameColor(lits) then lits[0].color else White,
                  lits[0].shape,
                  if SameSymbol(lits) then lits[0].symbol else NoSymbol,
                  true))
  {
    FoldStagesAt(lamps, stages, p);
    if LitSeq(stages, p) != [] {
      MergeAllFromEmpty(lamps[p], LitSeq(stages, p));
    }
  }

  /** What the fold may never undo: a present record stays present and keeps
      its shape, a white one stays white, one without symbol stays so. */
  predicate Refines(a: LampInfo, b: LampInfo) {
    a.present ==>
      && b.present
      && b.shape == a.shape
      && (a.color == White ==> b.color == White)
      && (a.symbol == NoSymbol ==> b.symbol == NoSymbol)
  }

  lemma {:induction false} MergeAllRefines(info: LampInfo, lits: seq<Lit>)
    ensures Refines(info, MergeAll(info, lits))
    ensures MergeAll(info, lits).present <==> info.present || lits != []
  {
    if lits != [] {
      MergeAllRefines(info, lits[..|lits| - 1]);
    }
  }

  /** Monotonicity of `fill_lamps`: at every position the new record
      refines the old one. */
  lemma FoldStagesMonotone(lamps: seq<LampInfo>, stages: seq<Stage>, p: nat)
    requires p < |lamps|
    ensures Refines(lamps[p], FoldStages(lamps, stages)[p])
  {
    FoldStagesAt(lamps, stages, p);
    MergeAllRefines(lamps[p], LitSeq(stages, p));
  }
}
