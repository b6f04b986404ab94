/**
 * Whitespace-separated input streams as the control-file readers see them.
 *
 * A control file is a sequence of tokens. The lexical step (splitting text at
 * whitespace and converting a token to a number) is abstracted: every token
 * carries its text and, where the text is a well-formed number, the integer
 * and real values that stream extraction would produce.
 */
module Streams {

  datatype Option<T> = None | Some(value: T)

  /** One token: its text and its integer and real readings, where it has them. */
  datatype Value = Value(text: string, asInt: Option<int>, asReal: Option<real>)

  /** An input stream: the tokens not yet read, and whether every extraction so far succeeded. */
  datatype InStream = InStream(rest: seq<Value>, ok: bool)

  /** What a reader expects to find in one token. */
  datatype Kind = Word | Integer | Real | Flag

  predicate Converts(v: Value, k: Kind)
  {
    match k
    case Word => true
    case Integer => v.asInt.Some?
    case Real => v.asReal.Some?
    case Flag => v.asInt == Some(0) || v.asInt == Some(1)
  }

  /** The stream is still good and holds tokens of the given kinds at its front. */
  predicate Fits(s: InStream, kinds: seq<Kind>)
  {
    s.ok && |kinds| <= |s.rest| && forall i :: 0 <= i < |kinds| ==> Converts(s.rest[i], kinds[i])
  }

  /** Reading a chain of kinds succeeds iff the first read does and the rest of the chain follows. */
  lemma FitsStep(s: InStream, k: Kind, ks: seq<Kind>)
    ensures Fits(s, [k] + ks) <==> Fits(s, [k]) && Fits(InStream(s.rest[1..], true), ks)
  {
    if Fits(s, [k]) && Fits(InStream(s.rest[1..], true), ks) {
      forall i | 0 <= i < |[k] + ks|
        ensures Converts(s.rest[i], ([k] + ks)[i])
      {
        if i > 0 {
          assert s.rest[i] == s.rest[1..][i - 1];
        }
      }
    }
  }

  /** n numbers in a row. */
  function Reals(n: nat): seq<Kind>
  {
    seq(n, _ => Real)
  }

  /** Reading n + 1 numbers succeeds iff the first read does and n more follow. */
  lemma ReadRealStep(s: InStream, prev: real, n: nat)
    ensures Fits(s, Reals(n + 1)) <==> ReadReal(s, prev).0.ok && Fits(ReadReal(s, prev).0, Reals(n))
  {
    assert Reals(n + 1) == [Real] + Reals(n);
    FitsStep(s, Real, Reals(n));
  }

  /** Reading a word and then the kinds ks succeeds iff the word read does and ks follow it. */
  lemma ReadWordStep(s: InStream, prev: string, ks: seq<Kind>)
    ensures Fits(s, [Word] + ks) <==> ReadWord(s, prev).0.ok && Fits(ReadWord(s, prev).0, ks)
  {
    FitsStep(s, Word, ks);
  }

  /** Reading an integer and then the kinds ks succeeds iff the integer read does and ks follow it. */
  lemma ReadIntStep(s: InStream, prev: int, ks: seq<Kind>)
    ensures Fits(s, [Integer] + ks) <==> ReadInt(s, prev).0.ok && Fits(ReadInt(s, prev).0, ks)
  {
    FitsStep(s, Integer, ks);
  }

  /** Reading a real and then the kinds ks succeeds iff the real read does and ks follow it. */
  lemma ReadRealThen(s: InStream, prev: real, ks: seq<Kind>)
    ensures Fits(s, [Real] + ks) <==> ReadReal(s, prev).0.ok && Fits(ReadReal(s, prev).0, ks)
  {
    FitsStep(s, Real, ks);
  }

  /** Reading a flag and then the kinds ks succeeds iff the flag read does and ks follow it. */
  lemma ReadFlagStep(s: InStream, prev: bool, ks: seq<Kind>)
    ensures Fits(s, [Flag] + ks) <==> ReadFlag(s, prev).0.ok && Fits(ReadFlag(s, prev).0, ks)
  {
    FitsStep(s, Flag, ks);
  }

  function IntOf(v: Value): int
  {
    if v.asInt.Some? then v.asInt.value else 0
  }

  function RealOf(v: Value): real
  {
    if v.asReal.Some? then v.asReal.value else 0.0
  }

  /**
   * `is >> str`: the next token's text. A failed or exhausted stream fails and
   * leaves the target as it was.
   */
  function ReadWord(s: InStream, prev: string): (r: (InStream, string))
    ensures r.0.ok <==> Fits(s, [Word])
    ensures r.0.ok ==> r.0.rest == s.rest[1..] && r.1 == s.rest[0].text
    ensures !r.0.ok ==> r.0.rest == s.rest && r.1 == prev
  {
    if s.ok && |s.rest| > 0 then (InStream(s.rest[1..], true), s.rest[0].text)
    else (InStream(s.rest, false), prev)
  }

  /**
   * `is >> n` for an integer target. A token that is not an integer fails the
   * stream and stores 0; a failed or exhausted stream leaves the target as it was.
   */
  function ReadInt(s: InStream, prev: int): (r: (InStream, int))
    ensures r.0.ok <==> Fits(s, [Integer])
    ensures r.0.ok ==> r.0.rest == s.rest[1..] && r.1 == IntOf(s.rest[0])
    ensures !r.0.ok ==> r.0.rest == s.rest
  {
    if !s.ok || |s.rest| == 0 then (InStream(s.rest, false), prev)
    else if s.rest[0].asInt.Some? then (InStream(s.rest[1..], true), s.rest[0].asInt.value)
    else (InStream(s.rest, false), 0)
  }

  /** `is >> x` for a floating-point target, with the same failure rules as ReadInt. */
  function ReadReal(s: InStream, prev: real): (r: (InStream, real))
    ensures r.0.ok <==> Fits(s, [Real])
    ensures r.0.ok ==> r.0.rest == s.rest[1..] && r.1 == RealOf(s.rest[0])
    ensures !r.0.ok ==> r.0.rest == s.rest
  {
    if !s.ok || |s.rest| == 0 then (InStream(s.rest, false), prev)
    else if s.rest[0].asReal.Some? then (InStream(s.rest[1..], true), s.rest[0].asReal.value)
    else (InStream(s.rest, false), 0.0)
  }

  /**
   * `is >> b` for a bool target: the token must read as 0 or 1. Any other
   * integer fails the stream and stores true; a token that is no integer
   * fails it and stores false.
   */
  function ReadFlag(s: InStream, prev: bool): (r: (InStream, bool))
    ensures r.0.ok <==> Fits(s, [Flag])
    ensures r.0.ok ==> r.0.rest == s.rest[1..] && r.1 == (s.rest[0].asInt == Some(1))
    ensures !r.0.ok ==> r.0.rest == s.rest
    ensures !r.0.ok && s.ok && |s.rest| > 0 ==> r.1 == s.rest[0].asInt.Some?
  {
    if !s.ok || |s.rest| == 0 then (InStream(s.rest, false), prev)
    else if s.rest[0].asInt == Some(0) then (InStream(s.rest[1..], true), false)
    else if s.rest[0].asInt == Some(1) then (InStream(s.rest[1..], true), true)
    else (InStream(s.rest, false), s.rest[0].asInt.Some?)
  }

  /**
   * The argument values a command-group command is packed from. An argument is
   * read back as text, an integer or a real; one that has no reading of the
   * requested kind leaves the target as it was.
   */
  function ArgText(a: Value): string
  {
    a.text
  }

  function ArgInt(a: Value, prev: int): int
  {
    if a.asInt.Some? then a.asInt.value else prev
  }

  function ArgReal(a: Value, prev: real): real
  {
    if a.asReal.Some? then a.asReal.value else prev
  }
}
