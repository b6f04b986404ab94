/**
 * The column initial state: the simulation box is cut into slabs along one
 * major axis, each slab given a fraction of the box width and a list of the
 * polymers to be assembled in it.
 *
 * `Read` is the specification of CInitialStateColumn::get; the class method
 * `Get` walks the stream as the reader does and is proved to leave exactly the
 * state `Read` describes. The lemmas state what an accepted column looks like.
 */
module InitialStateColumn {
  import opened Streams
  import Inputs

  /** The fields of a column together with the data-valid flag of its base class. */
  datatype ColumnData = ColumnData(
    valid: bool,
    slabTotal: int,
    xn: int, yn: int, zn: int,
    widths: seq<real>,
    polymers: seq<(int, string)>,
    polymerTypes: map<string, int>)

  /** The normal points along one of the three major axes. */
  predicate IsMajorAxis(x: int, y: int, z: int)
  {
    (x == 1 && y == 0 && z == 0) || (x == 0 && y == 1 && z == 0) || (x == 0 && y == 0 && z == 1)
  }

  function Sum(ws: seq<real>): real
  {
    if ws == [] then 0.0 else ws[0] + Sum(ws[1..])
  }

  /** A polymer name as a slab line may hold it: not empty and not one of the two keywords. */
  predicate IsPolymerEntry(name: string)
  {
    name != "" && name != "Polymers" && name != "Normal"
  }

  // ---------------------------------------------------------------------
  // Specification of get

  /** Widths appended to the column, the stream after them, and whether a check failed. */
  datatype WidthsRead = WidthsRead(pushed: seq<real>, s: InStream, failed: bool)

  /**
   * The loop over widths iw, ..., count - 1 with `running` the sum read so
   * far; the final slab is given what is left of the unit width.
   */
  function ReadWidths(s: InStream, iw: int, count: int, running: real): WidthsRead
    decreases count - iw
  {
    if iw >= count then WidthsRead([1.0 - running], s, false)
    else
      var (s1, w) := ReadReal(s, 0.0);
      var running1 := running + w;
      if !s1.ok || w < 0.0 || w > 1.0 || running1 >= 1.0 then WidthsRead([], s1, true)
      else
        WidthsAfter([w], ReadWidths(s1, iw + 1, count, running1))
  }

  function WidthsAfter(prefix: seq<real>, r: WidthsRead): WidthsRead
  {
    WidthsRead(prefix + r.pushed, r.s, r.failed)
  }

  lemma WidthsAfterTwice(a: seq<real>, b: seq<real>, r: WidthsRead)
    ensures WidthsAfter(a, WidthsAfter(b, r)) == WidthsAfter(a + b, r)
  {
    assert a + (b + r.pushed) == (a + b) + r.pushed;
  }

  /** A single slab must be given the whole width, written as 1. */
  function ReadUnitWidth(s: InStream): WidthsRead
  {
    var (s1, w) := ReadReal(s, 0.0);
    if !s1.ok || w != 1.0 then WidthsRead([], s1, true) else WidthsRead([1.0], s1, false)
  }

  /** Slab entries appended, the stream after them, the word read ahead, and whether a check failed. */
  datatype NamesRead = NamesRead(pushed: seq<(int, string)>, s: InStream, name: string, failed: bool)

  function Prefixed(prefix: seq<(int, string)>, r: NamesRead): NamesRead
  {
    NamesRead(prefix + r.pushed, r.s, r.name, r.failed)
  }

  lemma PrefixedTwice(a: seq<(int, string)>, b: seq<(int, string)>, r: NamesRead)
    ensures Prefixed(a, Prefixed(b, r)) == Prefixed(a + b, r)
  {
    assert a + (b + r.pushed) == (a + b) + r.pushed;
  }

  /** The names of slab iw, up to the next "Polymers" or "Normal"; `name` is the word in hand. */
  function ReadNames(s: InStream, iw: int, name: string): NamesRead
    decreases |s.rest| + (if s.ok then 1 else 0)
  {
    if name == "Polymers" || name == "Normal" then NamesRead([], s, name, false)
    else if s.ok && name != "" then
      var (s1, name1) := ReadWord(s, name);
      Prefixed([(iw, name)], ReadNames(s1, iw, name1))
    else NamesRead([], s, name, true)
  }

  /** One slab line: the keyword "Polymers", then at least one name before the next keyword. */
  function ReadSlab(s: InStream, iw: int, name: string): NamesRead
  {
    if !s.ok || name != "Polymers" then NamesRead([], s, name, true)
    else
      var (s1, name1) := ReadWord(s, name);
      if !s1.ok || name1 == "Polymers" || name1 == "" then NamesRead([], s1, name1, true)
      else ReadNames(s1, iw, name1)
  }

  /** The loop over slabs iw, ..., n - 1; `name` is the word read ahead. */
  function ReadSlabs(s: InStream, iw: int, n: int, name: string): NamesRead
    decreases n - iw
  {
    if iw >= n then NamesRead([], s, name, false)
    else
      var group := ReadSlab(s, iw, name);
      if group.failed then group
      else Prefixed(group.pushed, ReadSlabs(group.s, iw + 1, n, group.name))
  }

  /**
   * CInitialStateColumn::get: the new state of the column and the stream
   * after it. Every failed check clears the valid flag and stops reading; the
   * fields assigned and the entries appended before that point stay.
   */
  function Read(c: ColumnData, s: InStream): (ColumnData, InStream)
  {
    var (s1, token1) := ReadWord(s, "");
    if !s1.ok || token1 != "SliceTotal" then (c.(valid := false), s1)
    else
      var (s2, n) := ReadInt(s1, c.slabTotal);
      var c2 := c.(slabTotal := n);
      if !s2.ok || n < 1 then (c2.(valid := false), s2)
      else
        var (s3, token3) := ReadWord(s2, token1);
        if !s3.ok || token3 != "Widths" then (c2.(valid := false), s3)
        else ReadFromWidths(c2, s3)
  }

  /** The part of get after the keyword "Widths". */
  function ReadFromWidths(c: ColumnData, s: InStream): (ColumnData, InStream)
  {
    var w := if c.slabTotal > 1 then ReadWidths(s, 0, c.slabTotal - 1, 0.0) else ReadUnitWidth(s);
    var c4 := c.(widths := c.widths + w.pushed);
    if w.failed then (c4.(valid := false), w.s) else ReadFromSlabs(c4, w.s)
  }

  /** The part of get after the widths: the slab lines and the keyword "Normal". */
  function ReadFromSlabs(c: ColumnData, s: InStream): (ColumnData, InStream)
  {
    var (s5, name5) := ReadWord(s, "");
    var p := ReadSlabs(s5, 0, c.slabTotal, name5);
    var c6 := c.(polymers := c.polymers + p.pushed);
    if p.failed || !p.s.ok || p.name != "Normal" then (c6.(valid := false), p.s)
    else ReadNormal(c6, p.s)
  }

  /** The three components of the normal, which must lie along a major axis. */
  function ReadNormal(c: ColumnData, s: InStream): (ColumnData, InStream)
  {
    var (s7, x) := ReadInt(s, c.xn);
    var (s8, y) := ReadInt(s7, c.yn);
    var (s9, z) := ReadInt(s8, c.zn);
    var c9 := c.(xn := x, yn := y, zn := z);
    if !s9.ok || !IsMajorAxis(x, y, z) then (c9.(valid := false), s9) else (c9, s9)
  }

  // ---------------------------------------------------------------------
  // Specification of ValidateData

  /**
   * ValidateData's walk over the multimap: slab sn, entry j, with the polymer
   * types stored so far. Entries of slab sn are visited in the order they were
   * inserted. Returns the verdict and the polymer types after the walk.
   */
  function CheckSlabs(polymers: seq<(int, string)>, slabTotal: int, names: map<string, int>,
                      types: map<string, int>, sn: int, j: int): (bool, map<string, int>)
    requires 0 <= j
    decreases slabTotal - sn, |polymers| - j
  {
    if sn >= slabTotal then (true, types)
    else if j >= |polymers| then CheckSlabs(polymers, slabTotal, names, types, sn + 1, 0)
    else if polymers[j].0 != sn then CheckSlabs(polymers, slabTotal, names, types, sn, j + 1)
    else if polymers[j].1 !in names then (false, types)
    else
      var name := polymers[j].1;
      var types1 := if name in types then types else types[name := names[name]];
      CheckSlabs(polymers, slabTotal, names, types1, sn, j + 1)
  }

  /** Entry i is still to be visited by the walk standing at slab sn, entry j. */
  predicate Pending(polymers: seq<(int, string)>, slabTotal: int, sn: int, j: int, i: int)
    requires 0 <= i < |polymers|
  {
    (polymers[i].0 == sn && j <= i && sn < slabTotal) || (sn < polymers[i].0 < slabTotal)
  }

  // ---------------------------------------------------------------------
  // What an accepted column looks like

  /** The widths of n slabs: each a fraction of the box, the last one positive, all adding up to 1. */
  predicate PartitionsUnitWidth(ws: seq<real>, n: int)
  {
    |ws| == n && n >= 1 && Sum(ws) == 1.0 && ws[n - 1] > 0.0
    && WidthsInUnit(ws)
  }

  /**
   * The slab entries of n slabs: every entry names a polymer under a slab
   * index in range, the entries come slab by slab, and every slab but the
   * last names at least one polymer.
   */
  predicate GroupsBySlab(ps: seq<(int, string)>, n: int)
  {
    (forall k :: 0 <= k < |ps| ==> 0 <= ps[k].0 < n && IsPolymerEntry(ps[k].1))
    && (forall k, l :: 0 <= k < l < |ps| ==> ps[k].0 <= ps[l].0)
    && (forall slab :: 0 <= slab < n - 1 ==> HasSlab(ps, slab))
  }

  /** Some entry is stored under the given slab. */
  predicate HasSlab(ps: seq<(int, string)>, slab: int)
  {
    exists k :: 0 <= k < |ps| && ps[k].0 == slab
  }

  /** Every width is a fraction of the box. */
  predicate WidthsInUnit(ws: seq<real>)
  {
    forall k :: 0 <= k < |ws| ==> 0.0 <= ws[k] <= 1.0
  }

  /** The widths a successful read leaves: n fractions of the box adding up to what was left of the unit width. */
  predicate WidthsShape(ws: seq<real>, n: int, left: real)
  {
    |ws| == n && n >= 1 && Sum(ws) == left && WidthsInUnit(ws)
  }

  /** The last slab gets a positive width: the running sum stays below 1. */
  lemma {:induction false} ReadWidthsLast(s: InStream, iw: int, count: int, running: real)
    requires iw <= count && running < 1.0
    ensures var r := ReadWidths(s, iw, count, running);
            !r.failed ==> |r.pushed| > 0 && r.pushed[|r.pushed| - 1] > 0.0
    decreases count - iw
  {
    if iw < count {
      ReadWidthsUnfold(s, iw, count, running);
      var rr := ReadReal(s, 0.0);
      if rr.0.ok && 0.0 <= rr.1 <= 1.0 && running + rr.1 < 1.0 {
        var more := ReadWidths(rr.0, iw + 1, count, running + rr.1);
        ReadWidthsLast(rr.0, iw + 1, count, running + rr.1);
        if !more.failed {
          LastOfPrefixed(rr.1, more.pushed);
        }
      }
    }
  }

  lemma LastOfPrefixed(w: real, tail: seq<real>)
    requires |tail| > 0
    ensures ([w] + tail)[|tail|] == tail[|tail| - 1]
  {
  }

  /** One step of the widths loop: a width that passes its checks goes in front of the rest. */
  lemma ReadWidthsUnfold(s: InStream, iw: int, count: int, running: real)
    requires iw < count
    ensures var (s1, w) := ReadReal(s, 0.0);
            var r := ReadWidths(s, iw, count, running);
            if s1.ok && 0.0 <= w <= 1.0 && running + w < 1.0
            then r.pushed == [w] + ReadWidths(s1, iw + 1, count, running + w).pushed
                 && r.failed == ReadWidths(s1, iw + 1, count, running + w).failed
            else r.failed
  {
  }

  lemma {:induction false} ReadWidthsShape(s: InStream, iw: int, count: int, running: real)
    requires iw <= count && 0.0 <= running < 1.0
    ensures !ReadWidths(s, iw, count, running).failed ==>
              WidthsShape(ReadWidths(s, iw, count, running).pushed, count - iw + 1, 1.0 - running)
    decreases count - iw
  {
    var r := ReadWidths(s, iw, count, running);
    if iw < count {
      ReadWidthsUnfold(s, iw, count, running);
      var rr := ReadReal(s, 0.0);
      if rr.0.ok && 0.0 <= rr.1 <= 1.0 && running + rr.1 < 1.0 {
        var more := ReadWidths(rr.0, iw + 1, count, running + rr.1);
        ReadWidthsShape(rr.0, iw + 1, count, running + rr.1);
        ShapeStep(r, rr.1, more, count - iw, running);
      }
    } else {
      LastWidthShape(r.pushed, running);
    }
  }

  /** The widths loop's result is the width read in front of the rest of the loop's result. */
  lemma ShapeStep(r: WidthsRead, w: real, more: WidthsRead, n: int, running: real)
    requires r.pushed == [w] + more.pushed && r.failed == more.failed
    requires 0.0 <= w <= 1.0
    requires !more.failed ==> WidthsShape(more.pushed, n, 1.0 - (running + w))
    ensures !r.failed ==> WidthsShape(r.pushed, n + 1, 1.0 - running)
  {
    if !more.failed {
      WidthsStep(w, more.pushed, 1.0 - (running + w));
    }
  }

  /** The final slab alone: what is left of the unit width, a positive fraction. */
  lemma LastWidthShape(ws: seq<real>, running: real)
    requires ws == [1.0 - running] && 0.0 <= running < 1.0
    ensures WidthsShape(ws, 1, 1.0 - running)
  {
    assert ws[1..] == [];
  }

  /** One more width in front of a valid tail keeps the shape, and the width is added to the sum. */
  lemma WidthsStep(w: real, tail: seq<real>, left: real)
    requires 0.0 <= w <= 1.0 && WidthsShape(tail, |tail|, left)
    ensures WidthsShape([w] + tail, |tail| + 1, w + left)
  {
    var ws := [w] + tail;
    assert ws[1..] == tail;
    forall k | 0 <= k < |ws|
      ensures 0.0 <= ws[k] <= 1.0
    {
      if k > 0 {
        assert ws[k] == tail[k - 1];
      }
    }
  }

  lemma {:induction false} ReadNamesShape(s: InStream, iw: int, name: string)
    ensures var r := ReadNames(s, iw, name);
            (forall k :: 0 <= k < |r.pushed| ==> r.pushed[k].0 == iw && IsPolymerEntry(r.pushed[k].1))
            && (!r.failed ==> r.name == "Polymers" || r.name == "Normal")
            && (IsPolymerEntry(name) && !r.failed ==> r.pushed != [])
    decreases |s.rest| + (if s.ok then 1 else 0)
  {
    if name != "Polymers" && name != "Normal" && s.ok && name != "" {
      var (s1, name1) := ReadWord(s, name);
      ReadNamesShape(s1, iw, name1);
    }
  }

  lemma {:induction false} ReadSlabsShape(s: InStream, iw: int, n: int, name: string)
    requires 0 <= iw <= n
    ensures var r := ReadSlabs(s, iw, n, name);
            !r.failed ==>
              (forall k :: 0 <= k < |r.pushed| ==> iw <= r.pushed[k].0 < n && IsPolymerEntry(r.pushed[k].1))
              && (forall k, l :: 0 <= k < l < |r.pushed| ==> r.pushed[k].0 <= r.pushed[l].0)
              && (forall slab :: iw <= slab < n - 1 ==> HasSlab(r.pushed, slab))
              && (iw < n ==> r.name == "Polymers" || r.name == "Normal")
    decreases n - iw
  {
    var r := ReadSlabs(s, iw, n, name);
    if iw < n {
      var g := ReadSlab(s, iw, name);
      if !g.failed {
        var rw := ReadWord(s, name);
        var s1, name1 := rw.0, rw.1;
        assert g == ReadNames(s1, iw, name1);
        ReadNamesShape(s1, iw, name1);
        var more := ReadSlabs(g.s, iw + 1, n, g.name);
        ReadSlabsShape(g.s, iw + 1, n, g.name);
        assert r == Prefixed(g.pushed, more);
        if !more.failed {
          SlabsStep(r.pushed, g.pushed, more.pushed, iw, n);
          if iw < n - 1 {
            assert r.pushed[0] == g.pushed[0];
          }
          SlabsCovered(r.pushed, g.pushed, more.pushed, iw, n);
        }
      }
    }
  }

  /** If slab iw has an entry and later slabs each have one, every slab from iw on has one. */
  lemma SlabsCovered(ps: seq<(int, string)>, first: seq<(int, string)>, later: seq<(int, string)>, iw: int, n: int)
    requires ps == first + later
    requires iw < n - 1 ==> HasSlab(ps, iw)
    requires forall slab :: iw + 1 <= slab < n - 1 ==> HasSlab(later, slab)
    ensures forall slab :: iw <= slab < n - 1 ==> HasSlab(ps, slab)
  {
    forall slab | iw + 1 <= slab < n - 1
      ensures HasSlab(ps, slab)
    {
      assert HasSlab(later, slab);
      var k :| 0 <= k < |later| && later[k].0 == slab;
      assert ps[|first| + k] == later[k];
    }
  }

  /** Entries of slab iw followed by entries of later slabs are in range and grouped by slab. */
  lemma SlabsStep(ps: seq<(int, string)>, first: seq<(int, string)>, later: seq<(int, string)>, iw: int, n: int)
    requires ps == first + later && iw < n
    requires forall k :: 0 <= k < |first| ==> first[k].0 == iw && IsPolymerEntry(first[k].1)
    requires forall k :: 0 <= k < |later| ==> iw + 1 <= later[k].0 < n && IsPolymerEntry(later[k].1)
    requires forall k, l :: 0 <= k < l < |later| ==> later[k].0 <= later[l].0
    ensures forall k :: 0 <= k < |ps| ==> iw <= ps[k].0 < n && IsPolymerEntry(ps[k].1)
    ensures forall k, l :: 0 <= k < l < |ps| ==> ps[k].0 <= ps[l].0
  {
    forall k | 0 <= k < |ps|
      ensures iw <= ps[k].0 < n && IsPolymerEntry(ps[k].1)
    {
      if k >= |first| {
        assert ps[k] == later[k - |first|];
      }
    }
    forall k, l | 0 <= k < l < |ps|
      ensures ps[k].0 <= ps[l].0
    {
      if l < |first| {
      } else if k < |first| {
        assert ps[l] == later[l - |first|];
      } else {
        assert ps[k] == later[k - |first|];
        assert ps[l] == later[l - |first|];
      }
    }
  }

  /** The normal stage assigns only the normal and the flag, and accepts only a major axis. */
  lemma AcceptedNormal(c: ColumnData, s: InStream)
    ensures var r := ReadNormal(c, s).0;
            r == c.(valid := r.valid, xn := r.xn, yn := r.yn, zn := r.zn)
            && (r.valid ==> c.valid && IsMajorAxis(r.xn, r.yn, r.zn))
  {
  }

  /** The slab stage appends entries grouped by slab and then reads the normal. */
  lemma AcceptedFromSlabs(c: ColumnData, s: InStream)
    requires c.slabTotal >= 1
    ensures var r := ReadFromSlabs(c, s).0;
            r.valid ==>
              c.valid && r.slabTotal == c.slabTotal && r.widths == c.widths
              && r.polymerTypes == c.polymerTypes
              && |c.polymers| <= |r.polymers| && r.polymers[..|c.polymers|] == c.polymers
              && GroupsBySlab(r.polymers[|c.polymers|..], c.slabTotal)
              && IsMajorAxis(r.xn, r.yn, r.zn)
  {
    var r := ReadFromSlabs(c, s).0;
    var rw := ReadWord(s, "");
    var p := ReadSlabs(rw.0, 0, c.slabTotal, rw.1);
    var c6 := c.(polymers := c.polymers + p.pushed);
    ReadSlabsShape(rw.0, 0, c.slabTotal, rw.1);
    if r.valid {
      assert r == ReadNormal(c6, p.s).0;
      AcceptedNormal(c6, p.s);
      assert r.polymers[|c.polymers|..] == p.pushed;
    }
  }

  /** The width stage appends widths that partition the unit width, then reads the slabs. */
  /** The widths of n slabs, when read without a failed check, partition the unit width. */
  lemma WidthsPartition(s: InStream, n: int)
    requires n >= 1
    ensures var w := if n > 1 then ReadWidths(s, 0, n - 1, 0.0) else ReadUnitWidth(s);
            !w.failed ==> PartitionsUnitWidth(w.pushed, n) && (n == 1 ==> w.pushed == [1.0])
  {
    if n > 1 {
      ReadWidthsShape(s, 0, n - 1, 0.0);
      ReadWidthsLast(s, 0, n - 1, 0.0);
    } else {
      var w := ReadUnitWidth(s);
      if !w.failed {
        assert w.pushed == [1.0];
        assert w.pushed[1..] == [];
      }
    }
  }

  lemma AcceptedFromWidths(c: ColumnData, s: InStream)
    requires c.slabTotal >= 1
    ensures var r := ReadFromWidths(c, s).0;
            r.valid ==>
              c.valid && r.slabTotal == c.slabTotal && r.polymerTypes == c.polymerTypes
              && |c.widths| <= |r.widths| && r.widths[..|c.widths|] == c.widths
              && PartitionsUnitWidth(r.widths[|c.widths|..], c.slabTotal)
              && (c.slabTotal == 1 ==> r.widths[|c.widths|..] == [1.0])
              && |c.polymers| <= |r.polymers| && r.polymers[..|c.polymers|] == c.polymers
              && GroupsBySlab(r.polymers[|c.polymers|..], c.slabTotal)
              && IsMajorAxis(r.xn, r.yn, r.zn)
  {
    var r := ReadFromWidths(c, s).0;
    var n := c.slabTotal;
    var w := if n > 1 then ReadWidths(s, 0, n - 1, 0.0) else ReadUnitWidth(s);
    var c4 := c.(widths := c.widths + w.pushed);
    if r.valid {
      assert r == ReadFromSlabs(c4, w.s).0;
      AcceptedFromSlabs(c4, w.s);
      WidthsPartition(s, n);
      assert r.widths[|c.widths|..] == w.pushed;
    }
  }

  /**
   * What get accepts: the header "SliceTotal n" with n at least 1, widths
   * that partition the unit width (exactly 1 for a single slab), slab lines
   * grouped by slab, and a normal along a major axis. Widths and entries are
   * appended to what the column held before; the stored polymer types are
   * untouched; and get never sets a cleared valid flag again.
   */
  lemma AcceptedColumn(c: ColumnData, s: InStream)
    ensures var r := Read(c, s).0;
            r.valid ==>
              c.valid
              && Fits(s, [Word, Integer]) && s.rest[0].text == "SliceTotal"
              && s.rest[1].asInt == Some(r.slabTotal) && r.slabTotal >= 1
              && |c.widths| <= |r.widths| && r.widths[..|c.widths|] == c.widths
              && PartitionsUnitWidth(r.widths[|c.widths|..], r.slabTotal)
              && (r.slabTotal == 1 ==> r.widths[|c.widths|..] == [1.0])
              && |c.polymers| <= |r.polymers| && r.polymers[..|c.polymers|] == c.polymers
              && GroupsBySlab(r.polymers[|c.polymers|..], r.slabTotal)
              && IsMajorAxis(r.xn, r.yn, r.zn)
              && r.polymerTypes == c.polymerTypes
  {
    var r := Read(c, s).0;
    if r.valid {
      var r1 := ReadWord(s, "");
      var r2 := ReadInt(r1.0, c.slabTotal);
      var r3 := ReadWord(r2.0, r1.1);
      var c2 := c.(slabTotal := r2.1);
      assert r == ReadFromWidths(c2, r3.0).0;
      AcceptedFromWidths(c2, r3.0);
    }
  }

  /** A stream that does not open with "SliceTotal" only clears the flag: nothing else is assigned. */
  lemma HeaderRejected(c: ColumnData, s: InStream)
    requires !Fits(s, [Word]) || s.rest[0].text != "SliceTotal"
    ensures Read(c, s).0 == c.(valid := false)
  {
  }

  // ---------------------------------------------------------------------
  // The column format, token by token

  /** The real readings of a run of tokens. */
  function RealsOf(ts: seq<Value>): (ws: seq<real>)
    ensures |ws| == |ts|
  {
    seq(|ts|, k requires 0 <= k < |ts| => RealOf(ts[k]))
  }

  /** The number of width tokens written for n slabs: n - 1, or the single 1 of a one-slab column. */
  function WidthCount(n: int): nat
  {
    if n > 1 then n - 1 else 1
  }

  /** m width tokens at the front of ts, each a fraction of the box, whose sum with `running` stays below 1. */
  predicate FractionsFit(ts: seq<Value>, m: nat, running: real)
  {
    |ts| >= m
    && (forall k :: 0 <= k < m ==> ts[k].asReal.Some? && 0.0 <= RealOf(ts[k]) <= 1.0)
    && running + Sum(RealsOf(ts[..m])) < 1.0
  }

  /** The widths of n slabs as written: n - 1 fractions summing to less than 1, or a single 1. */
  predicate WidthsWritten(ts: seq<Value>, n: int)
  {
    if n > 1 then FractionsFit(ts, n - 1, 0.0) else |ts| >= 1 && ts[0].asReal == Some(1.0)
  }

  /** The widths stored for n slabs: those written, then what is left of the unit width. */
  function StoredWidths(ts: seq<Value>, n: int): seq<real>
    requires |ts| >= WidthCount(n)
  {
    if n > 1 then RealsOf(ts[..n - 1]) + [1.0 - Sum(RealsOf(ts[..n - 1]))] else [1.0]
  }

  predicate IsKeyword(text: string)
  {
    text == "Polymers" || text == "Normal"
  }

  /** How many tokens at the front of ts are polymer names. */
  function NameRun(ts: seq<Value>): (L: nat)
    ensures L <= |ts|
    ensures L < |ts| ==> !IsPolymerEntry(ts[L].text)
    decreases |ts|
  {
    if |ts| > 0 && IsPolymerEntry(ts[0].text) then 1 + NameRun(ts[1..]) else 0
  }

  /** The entries for the name tokens ts, all under slab k. */
  function Tagged(ts: seq<Value>, k: int): (ps: seq<(int, string)>)
    ensures |ps| == |ts|
  {
    seq(|ts|, j requires 0 <= j < |ts| => (k, ts[j].text))
  }

  /**
   * One slab line: "Polymers", then a token that is neither "Polymers" nor
   * empty, then polymer names up to the next keyword.
   */
  predicate SlabLine(u: seq<Value>)
  {
    |u| > 1 && u[0].text == "Polymers" && u[1].text != "Polymers" && u[1].text != ""
    && NameRun(u[1..]) + 1 < |u| && IsKeyword(u[NameRun(u[1..]) + 1].text)
  }

  /** The index of the keyword that ends a slab line. */
  function SlabEnd(u: seq<Value>): nat
    requires |u| > 1
  {
    NameRun(u[1..]) + 1
  }

  /** Slab lines for slabs k, ..., n - 1, then the keyword "Normal". */
  predicate SlabLines(u: seq<Value>, k: int, n: int)
    decreases n - k
  {
    if k >= n then |u| > 0 && u[0].text == "Normal"
    else SlabLine(u) && SlabLines(u[SlabEnd(u)..], k + 1, n)
  }

  /** The entries the slab lines for slabs k, ..., n - 1 name, slab by slab. */
  function Entries(u: seq<Value>, k: int, n: int): seq<(int, string)>
    requires SlabLines(u, k, n)
    decreases n - k
  {
    if k >= n then [] else Tagged(u[1..SlabEnd(u)], k) + Entries(u[SlabEnd(u)..], k + 1, n)
  }

  /** The tokens after the keyword "Normal" that ends the slab lines. */
  function AfterSlabs(u: seq<Value>, k: int, n: int): seq<Value>
    requires SlabLines(u, k, n)
    decreases n - k
  {
    if k >= n then u[1..] else AfterSlabs(u[SlabEnd(u)..], k + 1, n)
  }

  /** Three integer tokens along a major axis. */
  predicate NormalWritten(x: seq<Value>)
  {
    Fits(InStream(x, true), [Integer, Integer, Integer])
    && IsMajorAxis(IntOf(x[0]), IntOf(x[1]), IntOf(x[2]))
  }

  /** Everything after the widths: n slab lines, "Normal", and the normal. */
  predicate SlabsWritten(u: seq<Value>, n: int)
  {
    |u| > 0 && SlabLines(u, 0, n) && NormalWritten(AfterSlabs(u, 0, n))
  }

  /**
   * The column format: "SliceTotal n" with n at least 1, "Widths" and the
   * widths, a slab line for each slab, then "Normal" and a major axis.
   */
  predicate WellFormedColumn(s: InStream)
  {
    HeaderWritten(s)
    && WidthsWritten(s.rest[3..], IntOf(s.rest[1]))
    && SlabsWritten(s.rest[3 + WidthCount(IntOf(s.rest[1]))..], IntOf(s.rest[1]))
  }

  /** The column and the stream a well-formed column leaves, stated from its tokens. */
  function ReadWellFormed(c: ColumnData, s: InStream): (ColumnData, InStream)
    requires WellFormedColumn(s)
  {
    var n := IntOf(s.rest[1]);
    var v := s.rest[3..];
    var u := v[WidthCount(n)..];
    var x := AfterSlabs(u, 0, n);
    (c.(slabTotal := n, widths := c.widths + StoredWidths(v, n), polymers := c.polymers + Entries(u, 0, n),
        xn := IntOf(x[0]), yn := IntOf(x[1]), zn := IntOf(x[2])),
     InStream(x[3..], true))
  }

  lemma {:induction false} SumNonNegative(ws: seq<real>)
    requires WidthsInUnit(ws)
    ensures Sum(ws) >= 0.0
    decreases |ws|
  {
    if ws != [] {
      assert WidthsInUnit(ws[1..]) by {
        forall k | 0 <= k < |ws| - 1
          ensures 0.0 <= ws[1..][k] <= 1.0
        {
          assert ws[1..][k] == ws[k + 1];
        }
      }
      SumNonNegative(ws[1..]);
    }
  }

  /** The first width token split off: the fractions check moves on by one token. */
  lemma FractionsStep(ts: seq<Value>, m: nat, running: real)
    requires m >= 1 && |ts| > 0 && ts[0].asReal.Some?
    ensures |ts| >= m ==> RealsOf(ts[..m]) == [RealOf(ts[0])] + RealsOf(ts[1..][..m - 1])
    ensures |ts| >= m ==> Sum(RealsOf(ts[..m])) == RealOf(ts[0]) + Sum(RealsOf(ts[1..][..m - 1]))
    ensures 0.0 <= RealOf(ts[0]) <= 1.0 ==>
              (FractionsFit(ts, m, running) <==> FractionsFit(ts[1..], m - 1, running + RealOf(ts[0])))
  {
    if |ts| < m {
      return;
    }
    var ws := RealsOf(ts[..m]);
    var tail := RealsOf(ts[1..][..m - 1]);
    assert ws == [RealOf(ts[0])] + tail;
    assert ws[1..] == tail;
    if 0.0 <= RealOf(ts[0]) <= 1.0 {
      if FractionsFit(ts[1..], m - 1, running + RealOf(ts[0])) {
        forall k | 0 <= k < m
          ensures ts[k].asReal.Some? && 0.0 <= RealOf(ts[k]) <= 1.0
        {
          if k > 0 {
            assert ts[k] == ts[1..][k - 1];
          }
        }
      }
      if FractionsFit(ts, m, running) {
        forall k | 0 <= k < m - 1
          ensures ts[1..][k].asReal.Some? && 0.0 <= RealOf(ts[1..][k]) <= 1.0
        {
          assert ts[1..][k] == ts[k + 1];
        }
      }
    }
  }

  /** A fraction that passes its checks while the running sum reaches 1 rules the column out. */
  lemma FractionsOverflow(ts: seq<Value>, m: nat, running: real)
    requires m >= 1 && |ts| > 0 && ts[0].asReal.Some? && 0.0 <= RealOf(ts[0]) <= 1.0
    requires running + RealOf(ts[0]) >= 1.0
    ensures !FractionsFit(ts, m, running)
  {
    FractionsStep(ts, m, running);
    if |ts| >= m && FractionsFit(ts, m, running) {
      var tail := RealsOf(ts[1..][..m - 1]);
      forall k | 0 <= k < |tail|
        ensures 0.0 <= tail[k] <= 1.0
      {
        assert ts[1..][..m - 1][k] == ts[k + 1];
      }
      SumNonNegative(tail);
    }
  }

  /**
   * The widths loop on tokens: it passes iff the remaining m tokens are
   * fractions whose sum with the running total stays below 1, and then it
   * pushes those fractions and the rest of the unit width, and stops just
   * after them.
   */
  lemma {:induction false} ReadWidthsTokens(ts: seq<Value>, iw: int, count: int, running: real)
    requires iw <= count && running < 1.0
    ensures var r := ReadWidths(InStream(ts, true), iw, count, running);
            (!r.failed <==> FractionsFit(ts, count - iw, running))
            && (!r.failed ==>
                  r.pushed == RealsOf(ts[..count - iw]) + [1.0 - running - Sum(RealsOf(ts[..count - iw]))]
                  && r.s == InStream(ts[count - iw..], true))
    decreases count - iw
  {
    var m := count - iw;
    if iw < count {
      if |ts| > 0 && ts[0].asReal.Some? {
        var w := RealOf(ts[0]);
        FractionsStep(ts, m, running);
        if 0.0 <= w <= 1.0 {
          if running + w >= 1.0 {
            FractionsOverflow(ts, m, running);
          } else {
            ReadWidthsTokens(ts[1..], iw + 1, count, running + w);
            if |ts| >= m {
              assert ts[1..][m - 1..] == ts[m..];
            }
          }
        }
      }
    } else {
      assert ts[..0] == [];
    }
  }

  /** The name loop on tokens: names are taken up to the first keyword; an empty token or the end of the stream fails. */
  lemma {:induction false} ReadNamesTokens(u: seq<Value>, iw: int)
    requires |u| > 0
    ensures var r := ReadNames(InStream(u[1..], true), iw, u[0].text);
            var L := NameRun(u);
            (!r.failed <==> L < |u| && IsKeyword(u[L].text))
            && (!r.failed ==> r == NamesRead(Tagged(u[..L], iw), InStream(u[L + 1..], true), u[L].text, false))
    decreases |u|
  {
    if IsPolymerEntry(u[0].text) && |u| > 1 {
      ReadNamesTokens(u[1..], iw);
      assert u[1..][1..] == u[2..];
      var L := NameRun(u);
      if L < |u| {
        assert u[1..][L - 1] == u[L];
        assert u[1..][L..] == u[L + 1..];
        assert Tagged(u[..L], iw) == [(iw, u[0].text)] + Tagged(u[1..][..L - 1], iw);
      }
    }
  }

  /** One slab line on tokens: it passes iff the tokens form a slab line, and then it takes the line's names. */
  lemma ReadSlabTokens(u: seq<Value>, iw: int)
    requires |u| > 0
    ensures var r := ReadSlab(InStream(u[1..], true), iw, u[0].text);
            (!r.failed <==> SlabLine(u))
            && (SlabLine(u) ==>
                  r == NamesRead(Tagged(u[1..SlabEnd(u)], iw), InStream(u[SlabEnd(u) + 1..], true),
                                 u[SlabEnd(u)].text, false))
  {
    if u[0].text == "Polymers" && |u| > 1 && u[1].text != "Polymers" && u[1].text != "" {
      ReadNamesTokens(u[1..], iw);
      assert u[1..][1..] == u[2..];
      var L := NameRun(u[1..]);
      if L < |u| - 1 {
        assert u[1..][L] == u[L + 1];
        assert u[1..][L + 1..] == u[L + 2..];
        assert u[1..][..L] == u[1..L + 1];
      }
    }
  }

  /** The slab loop on tokens: it ends on "Normal" with a good stream iff the slab lines are well formed. */
  lemma {:induction false} ReadSlabsTokens(u: seq<Value>, k: int, n: int)
    requires |u| > 0
    ensures var r := ReadSlabs(InStream(u[1..], true), k, n, u[0].text);
            (!r.failed && r.s.ok && r.name == "Normal" <==> SlabLines(u, k, n))
            && (SlabLines(u, k, n) ==> r.pushed == Entries(u, k, n) && r.s == InStream(AfterSlabs(u, k, n), true))
    decreases n - k
  {
    if k < n {
      ReadSlabTokens(u, k);
      if SlabLine(u) {
        var e := SlabEnd(u);
        assert u[e..][1..] == u[e + 1..];
        ReadSlabsTokens(u[e..], k + 1, n);
      }
    }
  }

  /** The normal on tokens: accepted iff three integers along a major axis. */
  lemma ReadNormalTokens(c: ColumnData, x: seq<Value>)
    ensures ReadNormal(c, InStream(x, true)).0.valid <==> c.valid && NormalWritten(x)
    ensures NormalWritten(x) ==>
              ReadNormal(c, InStream(x, true))
              == (c.(xn := IntOf(x[0]), yn := IntOf(x[1]), zn := IntOf(x[2])), InStream(x[3..], true))
  {
    var s := InStream(x, true);
    ReadIntStep(s, c.xn, [Integer, Integer]);
    ReadIntStep(ReadInt(s, c.xn).0, c.yn, [Integer]);
    ReadIntStep(ReadInt(ReadInt(s, c.xn).0, c.yn).0, c.zn, []);
    if Fits(s, [Integer, Integer, Integer]) {
      assert x[1..][1..] == x[2..];
      assert x[2..][1..] == x[3..];
    }
  }

  /** The part after the widths on tokens. */
  lemma ReadFromSlabsTokens(c: ColumnData, u: seq<Value>)
    requires c.slabTotal >= 1
    ensures ReadFromSlabs(c, InStream(u, true)).0.valid <==> c.valid && SlabsWritten(u, c.slabTotal)
    ensures SlabsWritten(u, c.slabTotal) ==>
              var x := AfterSlabs(u, 0, c.slabTotal);
              ReadFromSlabs(c, InStream(u, true))
              == (c.(polymers := c.polymers + Entries(u, 0, c.slabTotal),
                     xn := IntOf(x[0]), yn := IntOf(x[1]), zn := IntOf(x[2])),
                  InStream(x[3..], true))
    ensures !(|u| > 0 && SlabLines(u, 0, c.slabTotal)) ==>
              ReadFromSlabs(c, InStream(u, true)).0
              == c.(valid := false, polymers := ReadFromSlabs(c, InStream(u, true)).0.polymers)
  {
    if |u| > 0 {
      ReadSlabsTokens(u, 0, c.slabTotal);
      var p := ReadSlabs(InStream(u[1..], true), 0, c.slabTotal, u[0].text);
      if !p.failed && p.s.ok && p.name == "Normal" {
        ReadNormalTokens(c.(polymers := c.polymers + p.pushed), AfterSlabs(u, 0, c.slabTotal));
      }
    }
  }

  /** The part after "Widths" on tokens. */
  lemma ReadFromWidthsTokens(c: ColumnData, v: seq<Value>)
    requires c.slabTotal >= 1
    ensures ReadFromWidths(c, InStream(v, true)).0.valid
            <==> c.valid && WidthsWritten(v, c.slabTotal) && SlabsWritten(v[WidthCount(c.slabTotal)..], c.slabTotal)
    ensures WidthsWritten(v, c.slabTotal) ==>
              ReadFromWidths(c, InStream(v, true))
              == ReadFromSlabs(c.(widths := c.widths + StoredWidths(v, c.slabTotal)),
                               InStream(v[WidthCount(c.slabTotal)..], true))
    ensures !WidthsWritten(v, c.slabTotal) ==>
              ReadFromWidths(c, InStream(v, true)).0
              == c.(valid := false, widths := ReadFromWidths(c, InStream(v, true)).0.widths)
  {
    var n := c.slabTotal;
    if n > 1 {
      ReadWidthsTokens(v, 0, n - 1, 0.0);
    } else if |v| > 0 && v[0].asReal == Some(1.0) {
      assert ReadUnitWidth(InStream(v, true)) == WidthsRead([1.0], InStream(v[1..], true), false);
    }
    if WidthsWritten(v, n) {
      ReadFromSlabsTokens(c.(widths := c.widths + StoredWidths(v, n)), v[WidthCount(n)..]);
    }
  }

  /**
   * get accepts a column exactly when the column was valid before and its
   * tokens follow the column format; a well-formed column stores the slab
   * count, the widths written followed by the rest of the unit width, one
   * entry per polymer name under its slab, and the normal, and leaves the
   * stream just after the normal.
   */
  lemma ReadColumnTokens(c: ColumnData, s: InStream)
    ensures Read(c, s).0.valid <==> c.valid && WellFormedColumn(s)
    ensures WellFormedColumn(s) ==> Read(c, s) == ReadWellFormed(c, s)
  {
    HeaderTokens(c, s);
    if HeaderWritten(s) {
      var n := IntOf(s.rest[1]);
      var c2 := c.(slabTotal := n);
      var v := s.rest[3..];
      ReadFromWidthsTokens(c2, v);
      if WidthsWritten(v, n) {
        ReadFromSlabsTokens(c2.(widths := c.widths + StoredWidths(v, n)), v[WidthCount(n)..]);
      }
    }
  }

  /**
   * get stops at the first check that fails: a bad header assigns at most the
   * slab count, bad widths leave the entries and the normal as they were, and
   * bad slab lines leave the normal as it was.
   */
  lemma ReadStopsAtFirstFailure(c: ColumnData, s: InStream)
    ensures var r := Read(c, s).0;
            !HeaderWritten(s) ==>
              r.widths == c.widths && r.polymers == c.polymers && r.xn == c.xn && r.yn == c.yn && r.zn == c.zn
    ensures var r := Read(c, s).0;
            HeaderWritten(s) && !WidthsWritten(s.rest[3..], IntOf(s.rest[1])) ==>
              !r.valid && r.polymers == c.polymers && r.xn == c.xn && r.yn == c.yn && r.zn == c.zn
    ensures var r := Read(c, s).0;
            HeaderWritten(s) && WidthsWritten(s.rest[3..], IntOf(s.rest[1]))
            && !(|s.rest[3 + WidthCount(IntOf(s.rest[1]))..]| > 0
                 && SlabLines(s.rest[3 + WidthCount(IntOf(s.rest[1]))..], 0, IntOf(s.rest[1]))) ==>
              !r.valid && r.xn == c.xn && r.yn == c.yn && r.zn == c.zn
  {
    HeaderTokens(c, s);
    if HeaderWritten(s) {
      var n := IntOf(s.rest[1]);
      var c2 := c.(slabTotal := n);
      var v := s.rest[3..];
      ReadFromWidthsTokens(c2, v);
      if WidthsWritten(v, n) {
        assert v[WidthCount(n)..] == s.rest[3 + WidthCount(n)..];
        ReadFromSlabsTokens(c2.(widths := c.widths + StoredWidths(v, n)), v[WidthCount(n)..]);
      }
    }
  }

  /** "SliceTotal n Widths" with n at least 1. */
  predicate HeaderWritten(s: InStream)
  {
    Fits(s, [Word, Integer, Word])
    && s.rest[0].text == "SliceTotal" && IntOf(s.rest[1]) >= 1 && s.rest[2].text == "Widths"
  }

  /** The header on tokens: a bad header rejects the column, a good one hands over to the widths. */
  lemma HeaderTokens(c: ColumnData, s: InStream)
    ensures !HeaderWritten(s) ==> Read(c, s).0 == c.(valid := false, slabTotal := Read(c, s).0.slabTotal)
    ensures HeaderWritten(s) ==>
              Read(c, s) == ReadFromWidths(c.(slabTotal := IntOf(s.rest[1])), InStream(s.rest[3..], true))
  {
    ReadWordStep(s, "", [Integer, Word]);
    var s1 := ReadWord(s, "").0;
    ReadIntStep(s1, c.slabTotal, [Word]);
    if Fits(s, [Word, Integer, Word]) {
      assert s.rest[1..][1..][1..] == s.rest[3..];
    }
  }

  /**
   * ValidateData's verdict: it fails exactly when an entry still to be
   * visited names a polymer the input data does not define.
   */
  lemma {:induction false} CheckSlabsVerdict(polymers: seq<(int, string)>, slabTotal: int, names: map<string, int>,
                                              types: map<string, int>, sn: int, j: int)
    requires 0 <= j
    ensures CheckSlabs(polymers, slabTotal, names, types, sn, j).0
            <==> forall i :: 0 <= i < |polymers| && Pending(polymers, slabTotal, sn, j, i) ==> polymers[i].1 in names
    decreases slabTotal - sn, |polymers| - j
  {
    if sn >= slabTotal {
    } else if j >= |polymers| {
      CheckSlabsVerdict(polymers, slabTotal, names, types, sn + 1, 0);
      forall i | 0 <= i < |polymers|
        ensures Pending(polymers, slabTotal, sn, j, i) <==> Pending(polymers, slabTotal, sn + 1, 0, i)
      {
      }
    } else if polymers[j].0 != sn {
      CheckSlabsVerdict(polymers, slabTotal, names, types, sn, j + 1);
      forall i | 0 <= i < |polymers|
        ensures Pending(polymers, slabTotal, sn, j, i) <==> Pending(polymers, slabTotal, sn, j + 1, i)
      {
      }
    } else if polymers[j].1 !in names {
      assert Pending(polymers, slabTotal, sn, j, j);
    } else {
      var name := polymers[j].1;
      var types1 := if name in types then types else types[name := names[name]];
      CheckSlabsVerdict(polymers, slabTotal, names, types1, sn, j + 1);
      forall i | 0 <= i < |polymers|
        ensures Pending(polymers, slabTotal, sn, j, i) <==> i == j || Pending(polymers, slabTotal, sn, j + 1, i)
      {
      }
    }
  }

  /**
   * What ValidateData stores: types already stored keep their value, every
   * newly stored type is the input data's type for that name, and on success
   * every entry visited has its type stored.
   */
  lemma {:induction false} CheckSlabsStores(polymers: seq<(int, string)>, slabTotal: int, names: map<string, int>,
                                             types: map<string, int>, sn: int, j: int)
    requires 0 <= j
    ensures var (ok, types') := CheckSlabs(polymers, slabTotal, names, types, sn, j);
            (forall k :: k in types ==> k in types' && types'[k] == types[k])
            && (forall k :: k in types' && k !in types ==> k in names && types'[k] == names[k])
            && (ok ==> forall i :: 0 <= i < |polymers| && Pending(polymers, slabTotal, sn, j, i) ==> polymers[i].1 in types')
    decreases slabTotal - sn, |polymers| - j
  {
    if sn >= slabTotal {
    } else if j >= |polymers| {
      CheckSlabsStores(polymers, slabTotal, names, types, sn + 1, 0);
      forall i | 0 <= i < |polymers|
        ensures Pending(polymers, slabTotal, sn, j, i) <==> Pending(polymers, slabTotal, sn + 1, 0, i)
      {
      }
    } else if polymers[j].0 != sn {
      CheckSlabsStores(polymers, slabTotal, names, types, sn, j + 1);
      forall i | 0 <= i < |polymers|
        ensures Pending(polymers, slabTotal, sn, j, i) <==> Pending(polymers, slabTotal, sn, j + 1, i)
      {
      }
    } else if polymers[j].1 !in names {
    } else {
      var name := polymers[j].1;
      var types1 := if name in types then types else types[name := names[name]];
      CheckSlabsStores(polymers, slabTotal, names, types1, sn, j + 1);
      forall i | 0 <= i < |polymers|
        ensures Pending(polymers, slabTotal, sn, j, i) <==> i == j || Pending(polymers, slabTotal, sn, j + 1, i)
      {
      }
    }
  }

  /**
   * ValidateData from the start: it succeeds exactly when every entry of
   * slabs 0, ..., slabTotal - 1 names a defined polymer, and then every such
   * name has its type stored; existing types are never overwritten.
   */
  lemma ValidatedColumn(polymers: seq<(int, string)>, slabTotal: int, names: map<string, int>, types: map<string, int>)
    ensures var (ok, types') := CheckSlabs(polymers, slabTotal, names, types, 0, 0);
            (ok <==> forall i :: 0 <= i < |polymers| && 0 <= polymers[i].0 < slabTotal ==> polymers[i].1 in names)
            && (ok ==> forall i :: 0 <= i < |polymers| && 0 <= polymers[i].0 < slabTotal
                          ==> polymers[i].1 in types')
            && (forall k :: k in types ==> k in types' && types'[k] == types[k])
            && (forall k :: k in types' && k !in types ==> k in names && types'[k] == names[k])
  {
    CheckSlabsVerdict(polymers, slabTotal, names, types, 0, 0);
    CheckSlabsStores(polymers, slabTotal, names, types, 0, 0);
    forall i | 0 <= i < |polymers|
      ensures Pending(polymers, slabTotal, 0, 0, i) <==> 0 <= polymers[i].0 < slabTotal
    {
    }
  }

  /** A keyword or name token. */
  function Name(text: string): Value
  {
    Value(text, None, None)
  }

  /** A token holding a whole number. */
  function Number(text: string, n: int): Value
  {
    Value(text, Some(n), Some(n as real))
  }

  /**
   * The final slab may name no polymers: "Polymers" directly followed by
   * "Normal" is accepted for the last slab, unlike for any earlier one.
   */
  lemma EmptyLastSlabAccepted(c: ColumnData)
    requires c.valid
    ensures var s := InStream([Name("SliceTotal"), Number("1", 1), Name("Widths"), Number("1", 1),
                               Name("Polymers"), Name("Normal"),
                               Number("0", 0), Number("0", 0), Number("1", 1)], true);
            var r := Read(c, s).0;
            r.valid && r.slabTotal == 1 && r.widths == c.widths + [1.0] && r.polymers == c.polymers
  {
    var s := InStream([Name("SliceTotal"), Number("1", 1), Name("Widths"), Number("1", 1),
                       Name("Polymers"), Name("Normal"),
                       Number("0", 0), Number("0", 0), Number("1", 1)], true);
    assert ReadSlab(InStream(s.rest[5..], true), 0, "Polymers") == NamesRead([], InStream(s.rest[6..], true), "Normal", false);
    assert ReadSlabs(InStream(s.rest[5..], true), 0, 1, "Polymers") == NamesRead([], InStream(s.rest[6..], true), "Normal", false);
    var c2 := c.(slabTotal := 1);
    var c4 := c2.(widths := c.widths + [1.0]);
    assert ReadNormal(c4, InStream(s.rest[6..], true)).0 == c4.(xn := 0, yn := 0, zn := 1);
    assert c4.polymers + [] == c4.polymers;
    assert ReadFromSlabs(c4, InStream(s.rest[4..], true)) == ReadNormal(c4, InStream(s.rest[6..], true));
    assert ReadUnitWidth(InStream(s.rest[3..], true)) == WidthsRead([1.0], InStream(s.rest[4..], true), false);
    assert ReadFromWidths(c2, InStream(s.rest[3..], true)) == ReadFromSlabs(c4, InStream(s.rest[4..], true));
    assert Read(c, s) == ReadFromWidths(c2, InStream(s.rest[3..], true));
  }

  /** A two-slab column: a quarter of the box of lipid, the rest water, normal along x. */
  const TwoSlabInput: seq<Value> :=
    [Name("SliceTotal"), Number("2", 2), Name("Widths"), Value("0.25", None, Some(0.25)),
     Name("Polymers"), Name("Lipid"), Name("Polymers"), Name("Water"), Name("Normal"),
     Number("1", 1), Number("0", 0), Number("0", 0)]

  /** The slab lines of the two-slab column: one polymer in each slab. */
  lemma TwoSlabLines()
    ensures ReadSlabs(InStream(TwoSlabInput[5..], true), 0, 2, "Polymers")
            == NamesRead([(0, "Lipid"), (1, "Water")], InStream(TwoSlabInput[9..], true), "Normal", false)
  {
    var s := TwoSlabInput;
    assert ReadNames(InStream(s[6..], true), 0, "Lipid") == NamesRead([(0, "Lipid")], InStream(s[7..], true), "Polymers", false);
    assert ReadNames(InStream(s[8..], true), 1, "Water") == NamesRead([(1, "Water")], InStream(s[9..], true), "Normal", false);
    assert ReadSlabs(InStream(s[7..], true), 1, 2, "Polymers") == NamesRead([(1, "Water")], InStream(s[9..], true), "Normal", false);
  }

  /** Two slabs: the first takes the width read, the second what remains of the unit width. */
  lemma TwoSlabColumn(c: ColumnData)
    requires c.valid
    ensures var r := Read(c, InStream(TwoSlabInput, true)).0;
            r.valid && r.widths == c.widths + [0.25, 0.75] && r.polymers == c.polymers + [(0, "Lipid"), (1, "Water")]
  {
    var s := InStream(TwoSlabInput, true);
    assert ReadWidths(InStream(s.rest[3..], true), 0, 1, 0.0) == WidthsRead([0.25, 0.75], InStream(s.rest[4..], true), false);
    TwoSlabLines();
    var c2 := c.(slabTotal := 2);
    var c4 := c2.(widths := c.widths + [0.25, 0.75]);
    var c6 := c4.(polymers := c.polymers + [(0, "Lipid"), (1, "Water")]);
    assert ReadNormal(c6, InStream(s.rest[9..], true)).0 == c6.(xn := 1, yn := 0, zn := 0);
    assert ReadFromSlabs(c4, InStream(s.rest[4..], true)) == ReadNormal(c6, InStream(s.rest[9..], true));
    assert ReadFromWidths(c2, InStream(s.rest[3..], true)) == ReadFromSlabs(c4, InStream(s.rest[4..], true));
    assert Read(c, s) == ReadFromWidths(c2, InStream(s.rest[3..], true));
  }

  // ---------------------------------------------------------------------
  // The column object

  class Column {
    var valid: bool
    var slabTotal: int
    var xn: int
    var yn: int
    var zn: int
    var widths: seq<real>
    var polymers: seq<(int, string)>
    var polymerTypes: map<string, int>

    ghost function State(): ColumnData
      reads this
    {
      ColumnData(valid, slabTotal, xn, yn, zn, widths, polymers, polymerTypes)
    }

    /** An empty column: no slabs, no normal, no widths and no polymers. */
    constructor()
      ensures State() == ColumnData(true, 0, 0, 0, 0, [], [], map[])
    {
      valid := true;
      slabTotal := 0;
      xn, yn, zn := 0, 0, 0;
      widths := [];
      polymers := [];
      polymerTypes := map[];
    }

    /** operator=: copies the seven column fields; the base-class valid flag is not copied. */
    method Assign(other: Column)
      modifies this
      ensures State() == old(other.State()).(valid := old(valid))
    {
      if other != this {
        slabTotal := other.slabTotal;
        xn, yn, zn := other.xn, other.yn, other.zn;
        widths := other.widths;
        polymers := other.polymers;
        polymerTypes := other.polymerTypes;
      }
    }

    /** get: reads the column from the stream, as `Read` specifies. */
    method Get(input: InStream) returns (os: InStream)
      modifies this
      ensures (State(), os) == Read(old(State()), input)
    {
      var s := input;
      var token := "";
      var rw := ReadWord(s, token);
      s, token := rw.0, rw.1;
      if !s.ok || token != "SliceTotal" {
        valid := false;
        return s;
      }
      var ri := ReadInt(s, slabTotal);
      s, slabTotal := ri.0, ri.1;
      if !s.ok || slabTotal < 1 {
        valid := false;
        return s;
      }
      rw := ReadWord(s, token);
      s, token := rw.0, rw.1;
      if !s.ok || token != "Widths" {
        valid := false;
        return s;
      }
      os := GetWidths(s);
    }

    /** The widths: slabTotal - 1 of them are read and the last is what remains of 1. */
    method GetWidths(input: InStream) returns (os: InStream)
      requires slabTotal >= 1
      modifies this
      ensures (State(), os) == ReadFromWidths(old(State()), input)
    {
      var s := input;
      var failed;
      if slabTotal > 1 {
        s, failed := GetSeveralWidths(s);
      } else {
        var rr := ReadReal(s, 0.0);
        var width;
        s, width := rr.0, rr.1;
        failed := !s.ok || width != 1.0;
        if !failed {
          widths := widths + [1.0];
        } else {
          assert widths + [] == widths;
        }
      }
      if failed {
        valid := false;
        return s;
      }
      os := GetSlabs(s);
    }

    /** The loop over the first slabTotal - 1 widths, then the remainder for the last slab. */
    method GetSeveralWidths(input: InStream) returns (os: InStream, failed: bool)
      requires slabTotal > 1
      modifies this
      ensures State() == old(State()).(widths := old(widths) + ReadWidths(input, 0, slabTotal - 1, 0.0).pushed)
      ensures os == ReadWidths(input, 0, slabTotal - 1, 0.0).s
      ensures failed == ReadWidths(input, 0, slabTotal - 1, 0.0).failed
    {
      ghost var c3 := State();
      ghost var pushed: seq<real> := [];
      var count := slabTotal - 1;
      var s := input;
      var running := 0.0;
      var iw := 0;
      while iw < count
        invariant iw <= count
        invariant widths == c3.widths + pushed
        invariant State() == c3.(widths := widths)
        invariant ReadWidths(input, 0, count, 0.0) == WidthsAfter(pushed, ReadWidths(s, iw, count, running))
      {
        var rr := ReadReal(s, 0.0);
        var width;
        s, width := rr.0, rr.1;
        running := running + width;
        if !s.ok || width < 0.0 || width > 1.0 || running >= 1.0 {
          assert pushed + [] == pushed;
          return s, true;
        }
        widths := widths + [width];
        WidthsAfterTwice(pushed, [width], ReadWidths(s, iw + 1, count, running));
        pushed := pushed + [width];
        iw := iw + 1;
      }
      widths := widths + [1.0 - running];
      return s, false;
    }

    /** The slab lines, each "Polymers" followed by the names of the polymers in that slab. */
    method GetSlabs(input: InStream) returns (os: InStream)
      modifies this
      ensures (State(), os) == ReadFromSlabs(old(State()), input)
    {
      var s := input;
      var sName := "";
      var rw := ReadWord(s, sName);
      s, sName := rw.0, rw.1;
      var failed;
      s, sName, failed := GetSlabLines(s, sName);
      if failed || !s.ok || sName != "Normal" {
        valid := false;
        return s;
      }
      os := GetNormal(s);
    }

    /** The loop over the slabs; reports a failed check instead of clearing the flag. */
    method GetSlabLines(input: InStream, name: string) returns (os: InStream, last: string, failed: bool)
      modifies this
      ensures State() == old(State()).(polymers := old(polymers) + ReadSlabs(input, 0, slabTotal, name).pushed)
      ensures NamesRead([], os, last, failed) == ReadSlabs(input, 0, slabTotal, name).(pushed := [])
    {
      ghost var c5 := State();
      ghost var pushed: seq<(int, string)> := [];
      var n := slabTotal;
      var s := input;
      var sName := name;
      var iw := 0;
      while iw < n
        invariant polymers == c5.polymers + pushed
        invariant State() == c5.(polymers := polymers)
        invariant ReadSlabs(input, 0, n, name) == Prefixed(pushed, ReadSlabs(s, iw, n, sName))
      {
        ghost var group := ReadSlab(s, iw, sName);
        s, sName, failed := GetSlab(s, iw, sName);
        PrefixedTwice(pushed, group.pushed, ReadSlabs(s, iw + 1, n, sName));
        pushed := pushed + group.pushed;
        if failed {
          return s, sName, true;
        }
        iw := iw + 1;
      }
      assert pushed + [] == pushed;
      return s, sName, false;
    }

    /**
     * One pass of the slab loop: the keyword "Polymers", then the names stored
     * under slab iw. Reports a failed check instead of clearing the flag.
     */
    method GetSlab(input: InStream, iw: int, name: string) returns (os: InStream, last: string, failed: bool)
      modifies this
      ensures State() == old(State()).(polymers := old(polymers) + ReadSlab(input, iw, name).pushed)
      ensures NamesRead([], os, last, failed) == ReadSlab(input, iw, name).(pushed := [])
    {
      var s := input;
      var sName := name;
      if !s.ok || sName != "Polymers" {
        assert polymers + [] == polymers;
        return s, sName, true;
      }
      var rw := ReadWord(s, sName);
      s, sName := rw.0, rw.1;
      if !s.ok || sName == "Polymers" || sName == "" {
        assert polymers + [] == polymers;
        return s, sName, true;
      }
      os, last, failed := GetSlabNames(s, iw, sName);
    }

    /**
     * The while loop of one slab: names are stored under slab iw until the
     * next keyword. Reports a failed check instead of clearing the flag.
     */
    method GetSlabNames(input: InStream, iw: int, name: string) returns (os: InStream, last: string, failed: bool)
      modifies this
      ensures State() == old(State()).(polymers := old(polymers) + ReadNames(input, iw, name).pushed)
      ensures NamesRead([], os, last, failed) == ReadNames(input, iw, name).(pushed := [])
    {
      ghost var pg := polymers;
      ghost var added: seq<(int, string)> := [];
      var s := input;
      var sName := name;
      while sName != "Polymers" && sName != "Normal"
        invariant polymers == pg + added
        invariant State() == old(State()).(polymers := polymers)
        invariant ReadNames(input, iw, name) == Prefixed(added, ReadNames(s, iw, sName))
        decreases |s.rest| + (if s.ok then 1 else 0)
      {
        if !s.ok || sName == "" {
          assert added + [] == added;
          return s, sName, true;
        }
        polymers := polymers + [(iw, sName)];
        var rw := ReadWord(s, sName);
        PrefixedTwice(added, [(iw, sName)], ReadNames(rw.0, iw, rw.1));
        added := added + [(iw, sName)];
        s, sName := rw.0, rw.1;
      }
      assert added + [] == added;
      return s, sName, false;
    }

    /** The normal: three integers that must name a major axis. */
    method GetNormal(input: InStream) returns (os: InStream)
      modifies this
      ensures (State(), os) == ReadNormal(old(State()), input)
    {
      var s := input;
      var ri := ReadInt(s, xn);
      s, xn := ri.0, ri.1;
      ri := ReadInt(s, yn);
      s, yn := ri.0, ri.1;
      ri := ReadInt(s, zn);
      s, zn := ri.0, ri.1;
      if !s.ok || !IsMajorAxis(xn, yn, zn) {
        valid := false;
      }
      return s;
    }

    /**
     * ValidateData: every polymer named in a slab must be defined in the input
     * data; the type of each is stored unless the name is already stored.
     */
    method ValidateData(riData: Inputs.InputData) returns (ok: bool)
      modifies this
      ensures (ok, polymerTypes)
              == CheckSlabs(polymers, slabTotal, riData.polymerNames, old(polymerTypes), 0, 0)
      ensures State() == old(State()).(polymerTypes := polymerTypes)
    {
      ghost var c0 := State();
      var sn := 0;
      while sn < slabTotal
        invariant State() == c0.(polymerTypes := polymerTypes)
        invariant sn <= slabTotal || slabTotal < 0
        invariant CheckSlabs(polymers, slabTotal, riData.polymerNames, c0.polymerTypes, 0, 0)
                  == CheckSlabs(polymers, slabTotal, riData.polymerNames, polymerTypes, sn, 0)
      {
        var j := 0;
        while j < |polymers|
          invariant 0 <= j <= |polymers|
          invariant State() == c0.(polymerTypes := polymerTypes)
          invariant CheckSlabs(polymers, slabTotal, riData.polymerNames, c0.polymerTypes, 0, 0)
                    == CheckSlabs(polymers, slabTotal, riData.polymerNames, polymerTypes, sn, j)
        {
          if polymers[j].0 == sn {
            var polymerName := polymers[j].1;
            if polymerName in riData.polymerNames {
              if polymerName !in polymerTypes {
                polymerTypes := polymerTypes[polymerName := riData.polymerNames[polymerName]];
              }
            } else {
              return false;
            }
          }
          j := j + 1;
        }
        sn := sn + 1;
      }
      return true;
    }
  }
}
