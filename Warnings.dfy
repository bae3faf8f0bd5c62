/** `error_once` of draw.c: a warning about an unknown layout character is
    printed at most once per character over the life of the process, using
    a static table of flags indexed by the character. */
module Warnings {

  /** Size of the static `shown` table. */
  const TableSize := 226

  /** Characters `error_once` can be given without indexing out of its table. */
  predicate InTable(cs: seq<char>) {
    forall i :: 0 <= i < |cs| ==> (cs[i] as int) < TableSize
  }

  /** The characters printed when `cs` is reported in order, starting from
      the table `shown`. */
  function Printed(shown: seq<bool>, cs: seq<char>): seq<char>
    requires |shown| == TableSize && InTable(cs)
  {
    if cs == [] then []
    else
      var pre, c := cs[..|cs| - 1], cs[|cs| - 1];
      Printed(shown, pre) + if ShownAfter(shown, pre)[c as int] then [] else [c]
  }

  /** The table after reporting `cs` in order. */
  function ShownAfter(shown: seq<bool>, cs: seq<char>): (r: seq<bool>)
    requires |shown| == TableSize && InTable(cs)
    ensures |r| == TableSize
  {
    if cs == [] then shown
    else
      var pre, c := cs[..|cs| - 1], cs[|cs| - 1];
      ShownAfter(shown, pre)[c as int := true]
  }

  class WarningLog {
    var shown: array<bool>

    ghost predicate Valid()
      reads this
    {
      shown.Length == TableSize
    }

    /** The table starts all clear. */
    constructor ()
      ensures Valid() && fresh(shown)
      ensures forall i :: 0 <= i < TableSize ==> !shown[i]
    {
      shown := new bool[TableSize](_ => false);
    }

    /** `error_once(c)`: print a warning unless `c` was already reported,
        and remember `c`. */
    method ErrorOnce(c: char) returns (printed: bool)
      requires Valid() && (c as int) < TableSize
      modifies shown
      ensures printed == !old(shown[c as int])
      ensures shown[..] == old(shown[..])[c as int := true]
    {
      printed := !shown[c as int];
      if printed {
        shown[c as int] := true;
      }
      assert shown[..] == old(shown[..])[c as int := true];
    }
  }

  /** Reporting one more character. */
  lemma PrintedSnoc(shown: seq<bool>, cs: seq<char>, c: char)
    requires |shown| == TableSize && InTable(cs) && (c as int) < TableSize
    ensures InTable(cs + [c])
    ensures ShownAfter(shown, cs + [c]) == ShownAfter(shown, cs)[c as int := true]
    ensures Printed(shown, cs + [c]) == Printed(shown, cs) + if ShownAfter(shown, cs)[c as int] then [] else [c]
  {
    assert (cs + [c])[..|cs|] == cs;
  }

  /** Reporting `a` and then `b` prints what reporting `a + b` prints: the
      table carries over between calls. */
  lemma {:induction false} PrintedAppend(shown: seq<bool>, a: seq<char>, b: seq<char>)
    requires |shown| == TableSize && InTable(a) && InTable(b)
    ensures InTable(a + b)
    ensures ShownAfter(shown, a + b) == ShownAfter(ShownAfter(shown, a), b)
    ensures Printed(shown, a + b) == Printed(shown, a) + Printed(ShownAfter(shown, a), b)
  {
    if b != [] {
      var b' := b[..|b| - 1];
      PrintedAppend(shown, a, b');
      assert (a + b)[..|a + b| - 1] == a + b';
    } else {
      assert a + b == a;
    }
  }

  /** At most once per character: the printed characters are pairwise
      distinct, each was not yet in the table, and the table afterwards
      holds exactly the old entries plus the reported characters. */
  lemma {:induction false} PrintedOnce(shown: seq<bool>, cs: seq<char>)
    requires |shown| == TableSize && InTable(cs)
    ensures forall i, j :: 0 <= i < j < |Printed(shown, cs)| ==> Printed(shown, cs)[i] != Printed(shown, cs)[j]
    ensures forall i :: 0 <= i < |Printed(shown, cs)| ==>
              Printed(shown, cs)[i] in cs && !shown[Printed(shown, cs)[i] as int]
    ensures forall c :: c in cs && !shown[c as int] ==> c in Printed(shown, cs)
    ensures forall k :: 0 <= k < TableSize ==>
              (ShownAfter(shown, cs)[k] <==> shown[k] || exists i :: 0 <= i < |cs| && cs[i] as int == k)
  {
    if cs != [] {
      var pre, c := cs[..|cs| - 1], cs[|cs| - 1];
      PrintedOnce(shown, pre);
      var p := Printed(shown, cs);
      var q := Printed(shown, pre);
      forall k | 0 <= k < TableSize
        ensures ShownAfter(shown, cs)[k] <==> shown[k] || exists i :: 0 <= i < |cs| && cs[i] as int == k
      {
        if exists i :: 0 <= i < |pre| && pre[i] as int == k {
          var i :| 0 <= i < |pre| && pre[i] as int == k;
          assert cs[i] == pre[i];
        }
        if exists i :: 0 <= i < |cs| && cs[i] as int == k {
          var i :| 0 <= i < |cs| && cs[i] as int == k;
          if i < |pre| { assert pre[i] == cs[i]; }
        }
      }
      forall d | d in cs && !shown[d as int] ensures d in p {
        if d != c {
          assert d in pre;
        }
      }
      forall i | 0 <= i < |q| ensures q[i] in cs {
        assert q[i] in pre;
      }
      if !ShownAfter(shown, pre)[c as int] {
        assert p == q + [c];
        forall i | 0 <= i < |q| ensures q[i] != c {
          assert q[i] in pre;
          var j :| 0 <= j < |pre| && pre[j] == q[i];
          assert ShownAfter(shown, pre)[q[i] as int];
        }
      } else {
        assert p == q + [];
      }
    }
  }
}
