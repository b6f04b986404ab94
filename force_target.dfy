/**
 * CForceTarget: a named group of beads on which a force law acts. Beads are
 * appended region by region, de-duplicated by sorting on the bead id and
 * removing adjacent repeats, and pushed once per time step by the force law
 * until the law's end time.
 */
module ForceTarget {

  import opened Streams

  /** A three-component vector of forces or coordinates. */
  datatype Vec3 = Vec3(x: real, y: real, z: real)
  {
    function Add(v: Vec3): Vec3
    {
      Vec3(x + v.x, y + v.y, z + v.z)
    }

    function Scale(k: real): Vec3
    {
      Vec3(k * x, k * y, k * z)
    }
  }

  /** A bead: its unique id, its position and its force accumulator. */
  class Bead {
    const id: int
    var pos: Vec3
    var force: Vec3

    constructor(id: int, pos: Vec3)
      ensures this.id == id && this.pos == pos && force == Vec3(0.0, 0.0, 0.0)
    {
      this.id := id;
      this.pos := pos;
      force := Vec3(0.0, 0.0, 0.0);
    }
  }

  /**
   * How a force law computes the force on one bead: either from the
   * simulation time alone (GetXForce, GetYForce, GetZForce), or, for a radial
   * force, from the bead itself (CalculateVariableForces).
   */
  datatype LawKind = TimeDependent(at: int -> Vec3) | Radial(field: Vec3 -> Vec3)

  /** A CForceLaw: the time at which it stops acting, and how it computes forces. */
  datatype ForceLaw = ForceLaw(end: int, kind: LawKind)

  /** The force a law puts on one bead at position p and time simTime. */
  function Push(law: ForceLaw, simTime: int, p: Vec3): Vec3
  {
    match law.kind
    case TimeDependent(at) => at(simTime)
    case Radial(field) => field(p)
  }

  function Elems(s: seq<Bead>): set<Bead>
  {
    set b | b in s
  }

  /** Bead ids identify beads: two entries with the same id are the same bead. */
  predicate UniqueIds(s: seq<Bead>)
  {
    forall i, j :: 0 <= i < |s| && 0 <= j < |s| && s[i].id == s[j].id ==> s[i] == s[j]
  }

  predicate SortedById(s: seq<Bead>)
  {
    forall i, j :: 0 <= i < j < |s| ==> s[i].id <= s[j].id
  }

  predicate StrictlySortedById(s: seq<Bead>)
  {
    forall i, j :: 0 <= i < j < |s| ==> s[i].id < s[j].id
  }

  predicate AdjacentDistinct(s: seq<Bead>)
  {
    forall i :: 0 < i < |s| ==> s[i - 1] != s[i]
  }

  /**
   * Inserts b into the id-sorted sequence t after every entry whose id is not
   * greater than b's.
   */
  method InsertById(t: seq<Bead>, b: Bead) returns (u: seq<Bead>)
    requires SortedById(t)
    ensures SortedById(u)
    ensures multiset(u) == multiset(t) + multiset{b}
  {
    var k := 0;
    while k < |t| && t[k].id <= b.id
      invariant 0 <= k <= |t|
      invariant forall i :: 0 <= i < k ==> t[i].id <= b.id
    {
      k := k + 1;
    }
    u := t[..k] + [b] + t[k..];
    SortedInsertAt(t, k, b);
    assert t == t[..k] + t[k..];
  }

  /** Putting b between the entries with ids up to b's and those above keeps the order. */
  lemma SortedInsertAt(t: seq<Bead>, k: int, b: Bead)
    requires SortedById(t) && 0 <= k <= |t|
    requires forall i :: 0 <= i < k ==> t[i].id <= b.id
    requires k < |t| ==> b.id < t[k].id
    ensures SortedById(t[..k] + [b] + t[k..])
  {
    var u := t[..k] + [b] + t[k..];
    assert forall i :: 0 <= i < k ==> u[i] == t[i];
    assert u[k] == b;
    assert forall i :: k < i < |u| ==> u[i] == t[i - 1];
  }

  /** std::sort with aaBeadIdLess: orders the beads by id, keeping every entry. */
  method SortById(s: seq<Bead>) returns (t: seq<Bead>)
    ensures SortedById(t)
    ensures multiset(t) == multiset(s)
  {
    t := [];
    var i := 0;
    while i < |s|
      invariant 0 <= i <= |s|
      invariant SortedById(t)
      invariant multiset(t) == multiset(s[..i])
    {
      t := InsertById(t, s[i]);
      assert s[..i + 1] == s[..i] + [s[i]];
      i := i + 1;
    }
    assert s[..i] == s;
  }

  /**
   * std::unique followed by erase: keeps the first of every run of equal
   * adjacent entries.
   */
  method UniqueAdjacent(s: seq<Bead>) returns (t: seq<Bead>)
    ensures AdjacentDistinct(t)
    ensures Elems(t) == Elems(s)
    ensures |t| <= |s|
    ensures SortedById(s) ==> SortedById(t)
  {
    t := [];
    var i := 0;
    while i < |s|
      invariant 0 <= i <= |s|
      invariant |t| <= i
      invariant AdjacentDistinct(t)
      invariant Elems(t) == Elems(s[..i])
      invariant i > 0 ==> |t| > 0 && t[|t| - 1] == s[i - 1]
      invariant SortedById(s) ==> SortedById(t)
    {
      assert s[..i + 1] == s[..i] + [s[i]];
      if |t| == 0 || t[|t| - 1] != s[i] {
        if SortedById(s) {
          forall k | 0 <= k < |t|
            ensures t[k].id <= s[i].id
          {
            assert t[k] in Elems(s[..i]);
          }
        }
        t := t + [s[i]];
      } else {
        assert s[i] in Elems(t);
      }
      assert Elems(s[..i + 1]) == Elems(s[..i]) + {s[i]};
      i := i + 1;
    }
    assert s[..i] == s;
  }

  /** Sorted, free of adjacent repeats, with unique ids: the ids strictly increase. */
  lemma SortedDistinctIsStrict(t: seq<Bead>)
    requires SortedById(t) && AdjacentDistinct(t) && UniqueIds(t)
    ensures StrictlySortedById(t)
  {
    forall i, j | 0 <= i < j < |t|
      ensures t[i].id < t[j].id
    {
      assert t[i] != t[i + 1];
      assert t[i].id < t[i + 1].id;
      assert i + 1 == j || t[i + 1].id <= t[j].id;
    }
  }

  lemma NoElemsIsEmpty(s: seq<Bead>)
    ensures Elems(s) == {} <==> s == []
  {
    if s != [] {
      assert s[0] in Elems(s);
    }
  }

  /** A sequence strictly sorted by id is determined by the beads it holds. */
  lemma {:induction false} StrictlySortedIsDetermined(a: seq<Bead>, b: seq<Bead>)
    requires StrictlySortedById(a) && StrictlySortedById(b)
    requires Elems(a) == Elems(b)
    ensures a == b
    decreases |a|
  {
    NoElemsIsEmpty(a);
    NoElemsIsEmpty(b);
    if |a| > 0 {
      assert a[0] in Elems(b);
      assert b[0] in Elems(a);
      var k :| 0 <= k < |b| && b[k] == a[0];
      var m :| 0 <= m < |a| && a[m] == b[0];
      assert a[0].id <= a[m].id;
      assert b[0].id <= b[k].id;
      assert b[0].id == b[k].id;
      assert b[0] == a[0];
      forall x | x in Elems(a[1..])
        ensures x in Elems(b[1..])
      {
        var i :| 1 <= i < |a| && a[i] == x;
        assert x in Elems(b);
        var j :| 0 <= j < |b| && b[j] == x;
        assert a[0].id < a[i].id;
        assert j != 0;
      }
      forall x | x in Elems(b[1..])
        ensures x in Elems(a[1..])
      {
        var j :| 1 <= j < |b| && b[j] == x;
        assert x in Elems(a);
        var i :| 0 <= i < |a| && a[i] == x;
        assert b[0].id < b[j].id;
        assert i != 0;
      }
      StrictlySortedIsDetermined(a[1..], b[1..]);
      assert a == [a[0]] + a[1..] && b == [b[0]] + b[1..];
    }
  }

  /** In a sequence strictly sorted by id every bead occurs exactly once. */
  lemma {:induction false} StrictlySortedOccursOnce(s: seq<Bead>)
    requires StrictlySortedById(s)
    ensures forall b :: b in s ==> multiset(s)[b] == 1
    decreases |s|
  {
    if |s| > 0 {
      StrictlySortedOccursOnce(s[1..]);
      assert s == [s[0]] + s[1..];
      assert s[0] !in s[1..];
    }
  }

  /** Adding a force once more to k earlier additions makes k + 1 additions. */
  lemma OneMorePush(a: Vec3, k: real, f: Vec3)
    ensures a.Add(f.Scale(k)).Add(f) == a.Add(f.Scale(k + 1.0))
  {
    assert (k + 1.0) * f.x == k * f.x + f.x;
    assert (k + 1.0) * f.y == k * f.y + f.y;
    assert (k + 1.0) * f.z == k * f.z + f.z;
  }

  class ForceTarget {
    const name: string
    var beads: seq<Bead>
    var end: int
    var forceLaw: Option<ForceLaw>

    /** A new target holds the given beads, ends at time 0 and has no force law. */
    constructor(name: string, beads: seq<Bead>)
      ensures this.name == name && this.beads == beads
      ensures end == 0 && forceLaw == None
    {
      this.name := name;
      this.beads := beads;
      end := 0;
      forceLaw := None;
    }

    /** Stores the law, replacing any earlier one, and copies its end time. */
    method SetForceLaw(law: ForceLaw)
      modifies this
      ensures forceLaw == Some(law) && end == law.end
      ensures beads == old(beads)
    {
      end := law.end;
      forceLaw := Some(law);
    }

    /** Appends beads after the existing ones, in their order. */
    method AddBeads(more: seq<Bead>)
      modifies this
      ensures beads == old(beads) + more
      ensures end == old(end) && forceLaw == old(forceLaw)
    {
      beads := beads + more;
    }

    /**
     * Adds the law's force to every bead of the target, once per occurrence
     * of the bead in the list, and reports whether the target is still
     * active. When the miscellaneous classes are compiled out no force is
     * added. Only force accumulators change.
     */
    method AddForce(simTime: int, miscEnabled: bool) returns (active: bool)
      requires miscEnabled && |beads| > 0 ==> forceLaw.Some?
      modifies beads
      ensures active <==> simTime < end
      ensures forall b :: b in beads ==> b.pos == old(b.pos)
      ensures miscEnabled ==> forall b :: b in beads ==>
        b.force == old(b.force).Add(Push(forceLaw.value, simTime, b.pos).Scale(multiset(beads)[b] as real))
      ensures !miscEnabled ==> forall b :: b in beads ==> b.force == old(b.force)
    {
      if miscEnabled && |beads| > 0 {
        var bs := beads;
        var law := forceLaw.value;
        ghost var seen: multiset<Bead> := multiset{};
        var i := 0;
        while i < |bs|
          invariant 0 <= i <= |bs|
          invariant seen == multiset(bs[..i])
          invariant forall b :: b in bs ==> b.pos == old(b.pos)
          invariant forall b :: b in bs ==>
            b.force == old(b.force).Add(Push(law, simTime, b.pos).Scale(seen[b] as real))
        {
          var bead := bs[i];
          var f := Push(law, simTime, bead.pos);
          OneMorePush(old(bead.force), seen[bead] as real, f);
          bead.force := bead.force.Add(f);
          assert bs[..i + 1] == bs[..i] + [bead];
          ghost var before := seen;
          seen := seen + multiset{bead};
          forall b | b in bs && b != bead
            ensures b.force == old(b.force).Add(Push(law, simTime, b.pos).Scale(seen[b] as real))
          {
            assert seen[b] == before[b];
          }
          i := i + 1;
        }
        assert bs[..i] == bs;
      }
      active := simTime < end;
    }

    /**
     * Sorts the beads by id and removes repeated entries: afterwards every
     * bead of the target appears once, in increasing id order. Applied to a
     * list that is already de-duplicated it changes nothing.
     */
    method RemoveDuplicateBeads()
      requires UniqueIds(beads)
      modifies this
      ensures StrictlySortedById(beads)
      ensures Elems(beads) == Elems(old(beads))
      ensures StrictlySortedById(old(beads)) ==> beads == old(beads)
      ensures end == old(end) && forceLaw == old(forceLaw)
    {
      var sorted := SortById(beads);
      assert Elems(sorted) == Elems(beads) by {
        forall b ensures b in sorted <==> b in beads {
          assert b in sorted <==> b in multiset(sorted);
        }
      }
      var unique := UniqueAdjacent(sorted);
      assert UniqueIds(unique) by {
        forall i, j | 0 <= i < |unique| && 0 <= j < |unique| && unique[i].id == unique[j].id
          ensures unique[i] == unique[j]
        {
          assert unique[i] in Elems(beads) && unique[j] in Elems(beads);
        }
      }
      SortedDistinctIsStrict(unique);
      if StrictlySortedById(beads) {
        StrictlySortedIsDetermined(unique, beads);
      }
      beads := unique;
    }
  }
}
