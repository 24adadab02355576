/** The bitmask permission matcher of package db (db/models.go).

    A grant stores a capability as a three-character bit string `rwx`
    (read, write, execute).  A permission label names a regular expression
    over such strings; `MatchPermission` runs an unanchored regular
    expression search.  Every pattern used is a fixed-length sequence of
    positions, each either the literal `1` or the class `[01]`, so the search
    is modelled as "some window of the string fits the pattern". */
module Permissions {

  /** One position of a pattern: the literal `1`, or the class `[01]`. */
  datatype PatElem = One | Bit

  type Pattern = seq<PatElem>

  predicate Fits(e: PatElem, c: char) {
    match e
    case One => c == '1'
    case Bit => c == '0' || c == '1'
  }

  /** The pattern fits the window of `s` that starts at index `i`. */
  predicate FitsAt(p: Pattern, s: string, i: nat) {
    i + |p| <= |s| && forall k :: 0 <= k < |p| ==> Fits(p[k], s[i + k])
  }

  // The six patterns of the permission table, with their regular expressions.
  const ReadPattern: Pattern := [One, Bit, Bit]          // 1[01]{2}
  const WritePattern: Pattern := [Bit, One, Bit]         // [01]1[01]
  const ExecutePattern: Pattern := [Bit, Bit, One]       // [01]{2}1
  const ReadWritePattern: Pattern := [One, One, Bit]     // 11[01]
  const ReadExecutePattern: Pattern := [One, Bit, One]   // 1[01]1
  const WriteExecutePattern: Pattern := [Bit, One, One]  // [01]11

  /** The value SetupModels assigns to ConciergePermissions. */
  const ConciergePermissions: map<string, Pattern> := map[
    "r" := ReadPattern,
    "w" := WritePattern,
    "x" := ExecutePattern,
    "rw" := ReadWritePattern,
    "rx" := ReadExecutePattern,
    "wx" := WriteExecutePattern
  ]

  /** Go's `perms[name]`: a missing key reads as the zero value, the empty
      pattern. */
  function PatternOf(perms: map<string, Pattern>, name: string): Pattern {
    if name in perms then perms[name] else []
  }

  /** The leftmost-first search of the regular expression engine, resumed at
      index `from`: true iff some window starting at or after `from` fits. */
  function MatchFrom(p: Pattern, s: string, from: nat): (matched: bool)
    ensures matched <==> exists i :: from <= i && FitsAt(p, s, i)
    decreases |s| - from
  {
    if FitsAt(p, s, from) then true
    else if from + |p| >= |s| then false
    else MatchFrom(p, s, from + 1)
  }

  /** `regexp.MatchString(pattern, bitstring)`: an unanchored search. */
  function MatchPermission(p: Pattern, s: string): (matched: bool)
    ensures matched <==> exists i :: 0 <= i && FitsAt(p, s, i)
  {
    MatchFrom(p, s, 0)
  }

  /** The capability encoding: every character is a bit. */
  predicate IsBitString(s: string) {
    forall k :: 0 <= k < |s| ==> s[k] == '0' || s[k] == '1'
  }

  /** An independent reading of a label: the positions of the capability
      string its letters name (r = 0, w = 1, x = 2). */
  function RequiredPositions(name: string): (ps: set<nat>)
    ensures forall k :: k in ps ==> k < 3
  {
    (if 'r' in name then {0} else {}) +
    (if 'w' in name then {1} else {}) +
    (if 'x' in name then {2} else {})
  }

  /** On a string as long as the pattern, only the window at 0 exists. */
  lemma {:induction false} MatchOnExactLength(p: Pattern, s: string)
    requires |p| == |s|
    ensures MatchPermission(p, s) <==> FitsAt(p, s, 0)
  {
    if MatchPermission(p, s) {
      var i :| 0 <= i && FitsAt(p, s, i);
      assert i == 0;
    }
  }

  /** Each label of the table constrains all three positions. */
  lemma EveryPatternHasThreePositions(name: string)
    requires name in ConciergePermissions
    ensures |ConciergePermissions[name]| == 3
  {
  }

  /** For every label of the table and every 3-bit capability string, the
      label matches iff every position it names holds a `1`. */
  lemma {:induction false} MatchIffRequiredBitsSet(name: string, s: string)
    requires name in ConciergePermissions
    requires |s| == 3 && IsBitString(s)
    ensures MatchPermission(ConciergePermissions[name], s) <==>
            forall k :: k in RequiredPositions(name) ==> s[k] == '1'
  {
    var p := ConciergePermissions[name];
    MatchOnExactLength(p, s);
    assert FitsAt(p, s, 0) <==> Fits(p[0], s[0]) && Fits(p[1], s[1]) && Fits(p[2], s[2]);
    assert s[0] == '0' || s[0] == '1';
    assert s[1] == '0' || s[1] == '1';
    assert s[2] == '0' || s[2] == '1';
  }

  /** The single-letter labels each test one bit. */
  lemma {:induction false} SingleLetterLabels(s: string)
    requires |s| == 3 && IsBitString(s)
    ensures MatchPermission(ReadPattern, s) <==> s[0] == '1'
    ensures MatchPermission(WritePattern, s) <==> s[1] == '1'
    ensures MatchPermission(ExecutePattern, s) <==> s[2] == '1'
  {
    MatchIffRequiredBitsSet("r", s);
    MatchIffRequiredBitsSet("w", s);
    MatchIffRequiredBitsSet("x", s);
    assert RequiredPositions("r") == {0};
    assert RequiredPositions("w") == {1};
    assert RequiredPositions("x") == {2};
  }

  /** The two-letter labels are the conjunctions of their letters. */
  lemma {:induction false} PairLabelsAreConjunctions(s: string)
    requires |s| == 3 && IsBitString(s)
    ensures MatchPermission(ReadWritePattern, s) <==>
            MatchPermission(ReadPattern, s) && MatchPermission(WritePattern, s)
    ensures MatchPermission(ReadExecutePattern, s) <==>
            MatchPermission(ReadPattern, s) && MatchPermission(ExecutePattern, s)
    ensures MatchPermission(WriteExecutePattern, s) <==>
            MatchPermission(WritePattern, s) && MatchPermission(ExecutePattern, s)
  {
    SingleLetterLabels(s);
    MatchIffRequiredBitsSet("rw", s);
    MatchIffRequiredBitsSet("rx", s);
    MatchIffRequiredBitsSet("wx", s);
    assert RequiredPositions("rw") == {0, 1};
    assert RequiredPositions("rx") == {0, 2};
    assert RequiredPositions("wx") == {1, 2};
  }

  /** No label of the table matches a string shorter than three characters. */
  lemma {:induction false} ShortStringsMatchNoLabel(name: string, s: string)
    requires name in ConciergePermissions
    requires |s| < 3
    ensures !MatchPermission(ConciergePermissions[name], s)
  {
    var p := ConciergePermissions[name];
    forall i | 0 <= i
      ensures !FitsAt(p, s, i)
    {
    }
  }

  /** A three-character string holding anything but bits matches no label. */
  lemma {:induction false} NonBitStringsMatchNoLabel(name: string, s: string)
    requires name in ConciergePermissions
    requires |s| == 3 && !IsBitString(s)
    ensures !MatchPermission(ConciergePermissions[name], s)
  {
    var p := ConciergePermissions[name];
    MatchOnExactLength(p, s);
    var k :| 0 <= k < 3 && s[k] != '0' && s[k] != '1';
    assert !Fits(p[k], s[k]);
  }

  /** The empty pattern matches every string. */
  lemma EmptyPatternMatchesAll(s: string)
    ensures MatchPermission([], s)
  {
    assert FitsAt([], s, 0);
  }

  /** A label missing from the table reads as the empty pattern, so it
      matches every capability string. */
  lemma {:induction false} UnknownLabelMatchesAll(name: string, s: string)
    requires name !in ConciergePermissions
    ensures MatchPermission(PatternOf(ConciergePermissions, name), s)
  {
    EmptyPatternMatchesAll(s);
  }
}
