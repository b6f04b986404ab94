/**
 * CVesicleData: the input of a vesicle aggregate analysis. It names the
 * vesicle's polymer and the solvent polymer, whether to collect stress, and
 * the number of radial shells with the range of shells to analyse.
 */
module VesicleAnalysis {

  import opened Streams
  import opened Inputs

  datatype Vesicle = Vesicle(
    polymer: string, solvent: string, stress: bool,
    shellTotal: int, shellMin: int, shellMax: int)

  /** What ValidateData reports, in the order it checks. */
  datatype Verdict =
    | Accepted
    | InvalidPolymerName
    | PolymerNotFound
    | InvalidSolventName
    | SolventNotFound
    | InvalidShells

  /** The kinds of the twelve tokens get reads: six keywords, each followed by its value. */
  const Layout: seq<Kind> := [Word, Word, Word, Word, Word, Flag, Word, Integer, Word, Integer, Word, Integer]

  /** The input holds the six keyword-value pairs in order, with non-empty polymer and solvent names. */
  predicate WellFormed(s: InStream)
  {
    && Fits(s, Layout)
    && s.rest[0].text == "Polymer" && |s.rest[1].text| > 0
    && s.rest[2].text == "Solvent" && |s.rest[3].text| > 0
    && s.rest[4].text == "Stress" && s.rest[6].text == "ShellTotal"
    && s.rest[8].text == "ShellMin" && s.rest[10].text == "ShellMax"
  }

  /** The values of a well-formed input. */
  function FromTokens(ts: seq<Value>): Vesicle
    requires |ts| >= 12
  {
    Vesicle(ts[1].text, ts[3].text, ts[5].asInt == Some(1), IntOf(ts[7]), IntOf(ts[9]), IntOf(ts[11]))
  }

  /** At least one shell, and a non-empty range of shells inside it. */
  predicate ShellsInRange(v: Vesicle)
  {
    v.shellTotal >= 1 && v.shellMin >= 0 && v.shellMin < v.shellMax <= v.shellTotal
  }

  /** A name a user may give that also names a polymer of the run. */
  predicate KnownPolymer(name: string, riData: InputData)
  {
    riData.isExternalNameValid(name) && riData.IsPolymerInMap(name)
  }

  /**
   * The vesicle data checks: the polymer name, then the solvent name, each
   * first for validity and then for presence in the polymer map, and the
   * shells last. The first failing check decides the verdict.
   */
  function Validate(v: Vesicle, riData: InputData): (r: Verdict)
    ensures r == Accepted <==>
      KnownPolymer(v.polymer, riData) && KnownPolymer(v.solvent, riData) && ShellsInRange(v)
    ensures !riData.isExternalNameValid(v.polymer) ==> r == InvalidPolymerName
    ensures KnownPolymer(v.polymer, riData) && !KnownPolymer(v.solvent, riData) ==>
      r == InvalidSolventName || r == SolventNotFound
    ensures r == InvalidShells <==>
      KnownPolymer(v.polymer, riData) && KnownPolymer(v.solvent, riData) && !ShellsInRange(v)
  {
    if !riData.isExternalNameValid(v.polymer) then InvalidPolymerName
    else if !riData.IsPolymerInMap(v.polymer) then PolymerNotFound
    else if !riData.isExternalNameValid(v.solvent) then InvalidSolventName
    else if !riData.IsPolymerInMap(v.solvent) then SolventNotFound
    else if v.shellTotal < 1 || v.shellMin < 0 || v.shellMax <= v.shellMin || v.shellMax > v.shellTotal then InvalidShells
    else Accepted
  }

  /** Data that has never been read (no shells) fails validation, whatever the names. */
  lemma DefaultDataRejected(riData: InputData)
    ensures Validate(Vesicle("", "", false, 0, 0, 0), riData) != Accepted
  {
  }

  class VesicleData {
    /** The CAnalysisData valid flag. */
    var valid: bool
    var polymer: string
    var solvent: string
    var stress: bool
    var shellTotal: int
    var shellMin: int
    var shellMax: int

    ghost function State(): Vesicle
      reads this
    {
      Vesicle(polymer, solvent, stress, shellTotal, shellMin, shellMax)
    }

    /** Empty names, no stress and no shells; the base class starts invalid. */
    constructor()
      ensures State() == Vesicle("", "", false, 0, 0, 0) && !valid
    {
      valid := false;
      polymer, solvent, stress := "", "", false;
      shellTotal, shellMin, shellMax := 0, 0, 0;
    }

    /**
     * Reads the six keyword-value pairs. The first keyword that does not
     * match, value that does not read, or empty name marks the data invalid
     * and stops reading; only a complete read marks it valid.
     */
    method Get(input: InStream) returns (os: InStream)
      modifies this
      ensures valid <==> WellFormed(input)
      ensures valid ==> State() == FromTokens(input.rest) && os.rest == input.rest[12..] && os.ok
    {
      NamesThenShells(input);
      var ok;
      os, ok := GetNames(input);
      if !ok {
        valid := false;
        return;
      }
      var s := os;
      os, ok := GetShells(s);
      valid := ok;
      if ok {
        assert input.rest[4..][8..] == input.rest[12..];
      }
    }

    /** Reads "Polymer" name "Solvent" name. */
    method GetNames(input: InStream) returns (os: InStream, ok: bool)
      modifies this
      ensures ok <==> NamesAhead(input)
      ensures ok ==> os == InStream(input.rest[4..], true)
      ensures ok ==> polymer == input.rest[1].text && solvent == input.rest[3].text
      ensures stress == old(stress) && shellTotal == old(shellTotal)
      ensures shellMin == old(shellMin) && shellMax == old(shellMax)
    {
      var token := "";
      var r := ReadWord(input, token);
      os, token := r.0, r.1;
      if !os.ok || token != "Polymer" {
        return os, false;
      }
      r := ReadWord(os, polymer);
      os, polymer := r.0, r.1;
      if !os.ok || |polymer| == 0 {
        return os, false;
      }
      r := ReadWord(os, token);
      os, token := r.0, r.1;
      if !os.ok || token != "Solvent" {
        return os, false;
      }
      r := ReadWord(os, solvent);
      os, solvent := r.0, r.1;
      if !os.ok || |solvent| == 0 {
        return os, false;
      }
      assert input.rest[1..][1..][1..][1..] == input.rest[4..];
      return os, true;
    }

    /** Reads "Stress" flag "ShellTotal" n "ShellMin" n "ShellMax" n. */
    method GetShells(input: InStream) returns (os: InStream, ok: bool)
      modifies this
      ensures ok <==> ShellsAhead(input)
      ensures ok ==> os.ok && |input.rest| >= 8 && os.rest == input.rest[8..]
      ensures ok ==>
        && stress == (input.rest[1].asInt == Some(1))
        && shellTotal == IntOf(input.rest[3]) && shellMin == IntOf(input.rest[5])
        && shellMax == IntOf(input.rest[7])
      ensures polymer == old(polymer) && solvent == old(solvent)
    {
      var token := "";
      var r := ReadWord(input, token);
      os, token := r.0, r.1;
      if !os.ok || token != "Stress" {
        return os, false;
      }
      var f := ReadFlag(os, stress);
      os, stress := f.0, f.1;
      if !os.ok {
        return os, false;
      }
      var s1 := os;
      os, ok := GetShellCounts(s1);
      if ok {
        assert input.rest[2..][6..] == input.rest[8..];
      }
    }

    /** Reads "ShellTotal" n "ShellMin" n "ShellMax" n. */
    method GetShellCounts(input: InStream) returns (os: InStream, ok: bool)
      modifies this
      ensures ok <==> CountsAhead(input)
      ensures ok ==> os.ok && |input.rest| >= 6 && os.rest == input.rest[6..]
      ensures ok ==>
        shellTotal == IntOf(input.rest[1]) && shellMin == IntOf(input.rest[3]) && shellMax == IntOf(input.rest[5])
      ensures polymer == old(polymer) && solvent == old(solvent) && stress == old(stress)
    {
      var token := "";
      var r := ReadWord(input, token);
      os, token := r.0, r.1;
      if !os.ok || token != "ShellTotal" {
        return os, false;
      }
      var n := ReadInt(os, shellTotal);
      os, shellTotal := n.0, n.1;
      if !os.ok {
        return os, false;
      }
      r := ReadWord(os, token);
      os, token := r.0, r.1;
      if !os.ok || token != "ShellMin" {
        return os, false;
      }
      n := ReadInt(os, shellMin);
      os, shellMin := n.0, n.1;
      if !os.ok {
        return os, false;
      }
      r := ReadWord(os, token);
      os, token := r.0, r.1;
      if !os.ok || token != "ShellMax" {
        return os, false;
      }
      n := ReadInt(os, shellMax);
      os, shellMax := n.0, n.1;
      if !os.ok {
        return os, false;
      }
      assert input.rest[1..][1..][1..][1..][1..][1..] == input.rest[6..];
      return os, true;
    }

    /** ValidateData: true iff every check passes. */
    function ValidateData(riData: InputData): (ok: bool)
      reads this
      ensures ok <==> KnownPolymer(polymer, riData) && KnownPolymer(solvent, riData) && ShellsInRange(State())
    {
      Validate(Vesicle(polymer, solvent, stress, shellTotal, shellMin, shellMax), riData) == Accepted
    }
  }

  /** The first four tokens: "Polymer" name "Solvent" name, both names non-empty. */
  predicate NamesAhead(s: InStream)
  {
    && Fits(s, [Word, Word, Word, Word])
    && s.rest[0].text == "Polymer" && |s.rest[1].text| > 0
    && s.rest[2].text == "Solvent" && |s.rest[3].text| > 0
  }

  /** "Stress" flag, then the three shell counts. */
  predicate ShellsAhead(s: InStream)
  {
    && Fits(s, [Word, Flag])
    && s.rest[0].text == "Stress"
    && CountsAhead(InStream(s.rest[2..], true))
  }

  /** "ShellTotal" n "ShellMin" n "ShellMax" n. */
  predicate CountsAhead(s: InStream)
  {
    && Fits(s, [Word, Integer, Word, Integer, Word, Integer])
    && s.rest[0].text == "ShellTotal" && s.rest[2].text == "ShellMin" && s.rest[4].text == "ShellMax"
  }

  lemma NamesThenShells(s: InStream)
    ensures WellFormed(s) <==> NamesAhead(s) && ShellsAhead(InStream(s.rest[4..], true))
  {
    if |s.rest| >= 12 {
      var t := InStream(s.rest[4..], true);
      var u := InStream(t.rest[2..], true);
      assert forall i :: 0 <= i < 2 ==> s.rest[4 + i] == t.rest[i];
      assert forall i :: 0 <= i < 6 ==> s.rest[6 + i] == u.rest[i];
      if NamesAhead(s) && ShellsAhead(t) {
        assert Converts(t.rest[1], Flag);
        forall i | 0 <= i < 12
          ensures Converts(s.rest[i], Layout[i])
        {
          if i >= 6 {
            assert Converts(u.rest[i - 6], [Word, Integer, Word, Integer, Word, Integer][i - 6]);
          }
        }
      }
      if WellFormed(s) {
        assert Converts(s.rest[5], Layout[5]);
        forall i | 0 <= i < 6
          ensures Converts(u.rest[i], [Word, Integer, Word, Integer, Word, Integer][i])
        {
          assert Converts(s.rest[6 + i], Layout[6 + i]);
        }
      }
    }
  }
}
