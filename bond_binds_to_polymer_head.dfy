/**
 * aevBondBindsToPolymerHead: the active event that watches the head of a
 * growing polymer. When a free bond comes near the head, the event claims it,
 * pulls it into place with a transient spring whose strength ramps up over a
 * number of steps, and then either makes it the polymer's new head bond or,
 * if it is still too far away, releases it back to the free pool.
 *
 * The cell search, the periodic bond length and the contra-event test come
 * from the active simulation box, which is not part of this model: each is a
 * parameter of Execute.
 */
module ActiveEvents {

  /** An active bond: a monomer that may be free or part of a polymer. */
  class ActiveBond {
    var polymerised: bool

    constructor()
      ensures !polymerised
    {
      polymerised := false;
    }
  }

  /** An active polymer, known here only through its head bond. */
  class ActivePolymer {
    var head: ActiveBond

    constructor(head: ActiveBond)
      ensures this.head == head
    {
      this.head := head;
    }

    /** aeActivePolymer::AddHeadBond: the bond becomes the polymer's head. */
    method AddHeadBond(b: ActiveBond)
      modifies this
      ensures head == b
    {
      head := b;
    }
  }

  /** The active cell network's container of free bonds. */
  class FreeBondPool {
    var bonds: set<ActiveBond>

    constructor(bonds: set<ActiveBond>)
      ensures this.bonds == bonds
    {
      this.bonds := bonds;
    }
  }

  /**
   * The transient CBond that pulls a claimed bond towards the polymer head:
   * its two ends, its spring constant and unstretched length, and the spring
   * constants with which it has pushed its ends so far (AddPBCForce).
   */
  class InternalBond {
    var first: ActiveBond?
    var second: ActiveBond?
    var springConstant: real
    var unstretchedLength: real
    var pushes: seq<real>

    /** CBond(-1, 0.0, 0.0). */
    constructor()
      ensures first == null && second == null
      ensures springConstant == 0.0 && unstretchedLength == 0.0 && pushes == []
    {
      first := null;
      second := null;
      springConstant := 0.0;
      unstretchedLength := 0.0;
      pushes := [];
    }
  }

  /** The IActiveBondBindsToPolymer interface the shadow box hands out. */
  class BindsInterface {
    constructor()
    {
    }
  }

  /**
   * The spring constants of a ramp of d steps towards full strength k:
   * k/d, k/(d-1), ..., k/1.
   */
  function RampValues(k: real, d: nat): seq<real>
  {
    if d == 0 then [] else [k / (d as real)] + RampValues(k, d - 1)
  }

  /** A ramp of d steps has d values, starts at k/d and ends at full strength k. */
  lemma {:induction false} RampEndsAtFullStrength(k: real, d: nat)
    requires d >= 1
    ensures |RampValues(k, d)| == d
    ensures RampValues(k, d)[0] == k / (d as real)
    ensures RampValues(k, d)[d - 1] == k
    decreases d
  {
    if d > 1 {
      RampEndsAtFullStrength(k, d - 1);
    }
  }

  lemma {:induction false} RampLength(k: real, d: nat)
    ensures |RampValues(k, d)| == d
    decreases d
  {
    if d > 0 {
      RampLength(k, d - 1);
    }
  }

  /** Step i of a ramp of d steps uses k / (d - i). */
  lemma {:induction false} RampStep(k: real, d: nat, i: nat)
    requires i < d
    ensures |RampValues(k, d)| == d
    ensures RampValues(k, d)[i] == k / ((d - i) as real)
    decreases d
  {
    RampLength(k, d);
    if i > 0 {
      RampStep(k, d - 1, i - 1);
    }
  }

  lemma DivisionShrinks(k: real, a: real, b: real)
    requires k > 0.0 && 0.0 < b < a
    ensures k / a < k / b
  {
    assert k / a * a == k && k / b * b == k;
    assert (k / b) * a > (k / b) * b;
  }

  /** With a positive target strength the ramp strictly increases. */
  lemma RampIncreases(k: real, d: nat, i: nat, j: nat)
    requires k > 0.0 && i < j < d
    ensures |RampValues(k, d)| == d && RampValues(k, d)[i] < RampValues(k, d)[j]
  {
    RampStep(k, d, i);
    RampStep(k, d, j);
    DivisionShrinks(k, (d - i) as real, (d - j) as real);
  }

  /** The event's own fields, as one value. */
  datatype EventState = EventState(
    duration: int, range: real, springConstant: real, length: real,
    iEvent: BindsInterface?, polymer: ActivePolymer?, newHeadBond: ActiveBond?,
    counter: int, active: bool)

  class BondBindsToPolymerHead {
    var duration: int
    var range: real
    var springConstant: real
    var length: real
    var iEvent: BindsInterface?
    var polymer: ActivePolymer?
    /** The bond being pulled towards the head, if any. */
    var newHeadBond: ActiveBond?
    const internalBond: InternalBond
    var counter: int
    /** The aevActiveEvent flag that tells contra events this event is at work. */
    var active: bool

    /**
     * The event is active exactly while it holds a claimed bond; a claimed
     * bond is polymerised and not in the free pool; without one the ramp
     * counter is spent.
     */
    predicate Valid(pool: FreeBondPool)
      reads this, pool, newHeadBond
    {
      && duration >= 0
      && counter >= 0
      && (active <==> newHeadBond != null)
      && (newHeadBond != null ==> newHeadBond !in pool.bonds && newHeadBond.polymerised)
      && (newHeadBond == null ==> counter == 0)
    }

    /** The transient bond is as it was before the call. */
    twostate predicate InternalBondKept()
      reads this, internalBond
    {
      && internalBond.first == old(internalBond.first) && internalBond.second == old(internalBond.second)
      && internalBond.springConstant == old(internalBond.springConstant)
      && internalBond.unstretchedLength == old(internalBond.unstretchedLength)
      && internalBond.pushes == old(internalBond.pushes)
    }

    ghost function State(): EventState
      reads this
    {
      EventState(duration, range, springConstant, length, iEvent, polymer, newHeadBond, counter, active)
    }

    constructor(pool: FreeBondPool)
      ensures duration == 0 && range == 0.0 && springConstant == 0.0 && length == 0.0
      ensures iEvent == null && polymer == null && newHeadBond == null && counter == 0
      ensures fresh(internalBond)
      ensures internalBond.springConstant == 0.0 && internalBond.unstretchedLength == 0.0
      ensures Valid(pool)
    {
      duration := 0;
      range := 0.0;
      springConstant := 0.0;
      length := 0.0;
      iEvent := null;
      polymer := null;
      newHeadBond := null;
      internalBond := new InternalBond();
      counter := 0;
      active := false;
    }

    /**
     * The copy takes the parameters, the polymer, the claimed bond and the
     * counter, and gets a transient bond of its own.
     */
    constructor Copy(other: BondBindsToPolymerHead)
      ensures duration == other.duration && range == other.range
      ensures springConstant == other.springConstant && length == other.length
      ensures polymer == other.polymer && newHeadBond == other.newHeadBond
      ensures counter == other.counter && active == other.active
      ensures fresh(internalBond) && internalBond.springConstant == 0.0
      ensures iEvent == null
    {
      duration := other.duration;
      range := other.range;
      springConstant := other.springConstant;
      length := other.length;
      iEvent := null;
      polymer := other.polymer;
      newHeadBond := other.newHeadBond;
      internalBond := new InternalBond();
      counter := other.counter;
      active := other.active;
    }

    method SetPolymer(p: ActivePolymer?)
      modifies this
      ensures State() == old(State()).(polymer := p)
    {
      polymer := p;
    }

    /** Only a positive duration replaces the current one. */
    method SetDuration(time: int)
      modifies this
      ensures State() == old(State()).(duration := if time > 0 then time else old(duration))
    {
      if time > 0 {
        duration := time;
      }
    }

    /** Only a positive range replaces the current one. */
    method SetRange(r: real)
      modifies this
      ensures State() == old(State()).(range := if r > 0.0 then r else old(range))
    {
      if r > 0.0 {
        range := r;
      }
    }

    /** Only a positive spring constant replaces the current one. */
    method SetSpringConstant(spring: real)
      modifies this
      ensures State() == old(State()).(springConstant := if spring > 0.0 then spring else old(springConstant))
    {
      if spring > 0.0 {
        springConstant := spring;
      }
    }

    /** Only a positive length replaces the current one. */
    method SetLength(len: real)
      modifies this
      ensures State() == old(State()).(length := if len > 0.0 then len else old(length))
    {
      if len > 0.0 {
        length := len;
      }
    }

    /**
     * The search phase: if the cell search around the polymer head found a
     * free bond, claim it, start the ramp and stretch the transient bond
     * between the head and the claimed bond; otherwise change nothing.
     */
    method Search(found: ActiveBond?, pool: FreeBondPool)
      requires Valid(pool) && newHeadBond == null && polymer != null
      modifies this, found, pool, internalBond
      ensures Valid(pool)
      ensures iEvent == old(iEvent) && polymer == old(polymer) && duration == old(duration) && range == old(range)
      ensures springConstant == old(springConstant) && length == old(length)
      ensures found == null ==>
        && newHeadBond == null && active == old(active) && counter == old(counter)
        && pool.bonds == old(pool.bonds)
        && internalBond.first == old(internalBond.first) && internalBond.second == old(internalBond.second)
        && internalBond.unstretchedLength == old(internalBond.unstretchedLength)
      ensures found != null ==>
        && newHeadBond == found && active && counter == duration
        && found.polymerised
        && pool.bonds == old(pool.bonds) - {found}
        && internalBond.first == polymer.head && internalBond.second == found
        && internalBond.unstretchedLength == length
      ensures internalBond.springConstant == old(internalBond.springConstant)
      ensures internalBond.pushes == old(internalBond.pushes)
    {
      if found != null {
        newHeadBond := found;
        active := true;
        counter := duration;
        found.polymerised := true;
        pool.bonds := pool.bonds - {found};
        internalBond.first := polymer.head;
        internalBond.second := found;
        internalBond.unstretchedLength := length;
      }
    }

    /**
     * One ramp step: the transient bond pushes with 1/counter of the full
     * spring constant, and the counter goes down by one.
     */
    method Ramp()
      requires counter > 0
      modifies this, internalBond
      ensures internalBond.springConstant == springConstant / (old(counter) as real)
      ensures internalBond.pushes == old(internalBond.pushes) + [springConstant / (old(counter) as real)]
      ensures counter == old(counter) - 1
      ensures internalBond.first == old(internalBond.first) && internalBond.second == old(internalBond.second)
      ensures internalBond.unstretchedLength == old(internalBond.unstretchedLength)
      ensures newHeadBond == old(newHeadBond) && active == old(active) && iEvent == old(iEvent)
      ensures polymer == old(polymer) && duration == old(duration) && range == old(range)
      ensures springConstant == old(springConstant) && length == old(length)
    {
      internalBond.springConstant := springConstant / (counter as real);
      internalBond.pushes := internalBond.pushes + [internalBond.springConstant];
      counter := counter - 1;
    }

    /** The claimed bond is still too far away: it goes back to the free pool. */
    method Release(pool: FreeBondPool)
      requires Valid(pool) && newHeadBond != null && counter == 0
      modifies this, newHeadBond, pool
      ensures Valid(pool)
      ensures !old(newHeadBond).polymerised
      ensures pool.bonds == old(pool.bonds) + {old(newHeadBond)}
      ensures newHeadBond == null && !active && counter == 0
      ensures iEvent == old(iEvent) && polymer == old(polymer) && duration == old(duration) && range == old(range)
      ensures springConstant == old(springConstant) && length == old(length)
    {
      newHeadBond.polymerised := false;
      pool.bonds := pool.bonds + {newHeadBond};
      newHeadBond := null;
      active := false;
    }

    /**
     * The claimed bond is in place: it becomes the polymer's head, and the
     * event takes the spring constant of the network's template event.
     */
    method Attach(pool: FreeBondPool, templateSpring: real)
      requires Valid(pool) && newHeadBond != null && polymer != null && counter == 0
      modifies this, polymer
      ensures Valid(pool)
      ensures polymer == old(polymer) && polymer.head == old(newHeadBond)
      ensures newHeadBond == null && !active && counter == 0
      ensures springConstant == (if templateSpring > 0.0 then templateSpring else old(springConstant))
      ensures pool.bonds == old(pool.bonds)
      ensures iEvent == old(iEvent) && duration == old(duration) && length == old(length) && range == old(range)
    {
      polymer.AddHeadBond(newHeadBond);
      SetPolymer(polymer);
      newHeadBond := null;
      active := false;
      SetSpringConstant(templateSpring);
    }

    /**
     * One step of the event. The interface pointer is taken on the first
     * call only. Without a claimed bond and with no contra event active the
     * event searches; otherwise it ramps, releases or attaches. It always
     * reports that it wants to keep running.
     *
     * found: the free bond the head cell's search returns, or null;
     * dr: the periodic length of the transient bond;
     * templateSpring: the spring constant of the network's template event.
     */
    method Execute(shadowInterface: BindsInterface?, contraActive: bool, found: ActiveBond?,
                   dr: real, templateSpring: real, pool: FreeBondPool) returns (r: bool)
      requires Valid(pool)
      requires !contraActive && newHeadBond == null ==> polymer != null
      requires (contraActive || newHeadBond != null) && counter == 0 ==> newHeadBond != null
      requires (contraActive || newHeadBond != null) && counter == 0 && dr <= length ==> polymer != null
      modifies this, found, newHeadBond, pool, internalBond, polymer
      ensures r
      ensures Valid(pool)
      ensures iEvent == (if old(iEvent) == null then shadowInterface else old(iEvent))
      ensures duration == old(duration) && length == old(length) && range == old(range) && polymer == old(polymer)
      // searching
      ensures !contraActive && old(newHeadBond) == null ==>
        && springConstant == old(springConstant) && polymer.head == old(polymer.head)
        && internalBond.springConstant == old(internalBond.springConstant)
        && internalBond.pushes == old(internalBond.pushes)
      ensures !contraActive && old(newHeadBond) == null && found == null ==>
        && newHeadBond == null && !active && counter == 0 && pool.bonds == old(pool.bonds)
        && InternalBondKept()
      ensures !contraActive && old(newHeadBond) == null && found != null ==>
        && newHeadBond == found && active && counter == duration && found.polymerised
        && pool.bonds == old(pool.bonds) - {found}
        && internalBond.first == polymer.head && internalBond.second == found
        && internalBond.unstretchedLength == length
      // ramping
      ensures (contraActive || old(newHeadBond) != null) && old(counter) > 0 ==>
        && internalBond.springConstant == springConstant / (old(counter) as real)
        && internalBond.pushes == old(internalBond.pushes) + [springConstant / (old(counter) as real)]
        && internalBond.first == old(internalBond.first) && internalBond.second == old(internalBond.second)
        && internalBond.unstretchedLength == old(internalBond.unstretchedLength)
        && counter == old(counter) - 1 && newHeadBond == old(newHeadBond) && active == old(active)
        && newHeadBond.polymerised == old(newHeadBond.polymerised)
        && (found != null ==> found.polymerised == old(found.polymerised))
        && (polymer != null ==> polymer.head == old(polymer.head))
        && pool.bonds == old(pool.bonds) && springConstant == old(springConstant)
      // releasing
      ensures (contraActive || old(newHeadBond) != null) && old(counter) == 0 && dr > length ==>
        && !old(newHeadBond).polymerised && pool.bonds == old(pool.bonds) + {old(newHeadBond)}
        && newHeadBond == null && !active && counter == 0 && springConstant == old(springConstant)
        && InternalBondKept()
        && (found != null && found != old(newHeadBond) ==> found.polymerised == old(found.polymerised))
        && (polymer != null ==> polymer.head == old(polymer.head))
      // attaching
      ensures (contraActive || old(newHeadBond) != null) && old(counter) == 0 && dr <= length ==>
        && polymer.head == old(newHeadBond) && pool.bonds == old(pool.bonds)
        && newHeadBond == null && !active && counter == 0
        && springConstant == (if templateSpring > 0.0 then templateSpring else old(springConstant))
        && InternalBondKept()
        && old(newHeadBond).polymerised
        && (found != null ==> found.polymerised == old(found.polymerised))
    {
      if iEvent == null {
        iEvent := shadowInterface;
      }
      if !contraActive && newHeadBond == null {
        Search(found, pool);
      } else if counter > 0 {
        Ramp();
      } else if dr > length {
        Release(pool);
      } else {
        Attach(pool, templateSpring);
      }
      r := true;
    }

    /**
     * Drives a claimed bond through its whole ramp: the transient bond pushes
     * with k/c, k/(c-1), ..., k, where c is the counter at the start.
     */
    method RunRamp(shadowInterface: BindsInterface?, dr: real, templateSpring: real, pool: FreeBondPool)
      requires Valid(pool) && newHeadBond != null && polymer != null
      modifies this, newHeadBond, pool, internalBond, polymer
      ensures Valid(pool) && counter == 0 && newHeadBond == old(newHeadBond)
      ensures internalBond.pushes == old(internalBond.pushes) + RampValues(springConstant, old(counter))
    {
      var c0 := counter;
      RampLength(springConstant, c0);
      while counter > 0
        invariant Valid(pool) && 0 <= counter <= c0
        invariant newHeadBond == old(newHeadBond) && polymer == old(polymer)
        invariant springConstant == old(springConstant)
        invariant internalBond.pushes == old(internalBond.pushes) + RampValues(springConstant, c0)[..c0 - counter]
        decreases counter
      {
        RampStep(springConstant, c0, c0 - counter);
        assert RampValues(springConstant, c0)[..c0 - counter + 1]
          == RampValues(springConstant, c0)[..c0 - counter] + [springConstant / (counter as real)];
        var _ := Execute(shadowInterface, false, null, dr, templateSpring, pool);
      }
      assert RampValues(springConstant, c0)[..c0] == RampValues(springConstant, c0);
    }
  }
}
