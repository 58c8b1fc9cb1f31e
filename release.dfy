/**
 * The version bump of the release script. The version is split on '.', each
 * component converted with `Number`, the components bumped in place, and
 * joined back with '.'. Components are JavaScript array slots: a number,
 * `NaN`, or a hole left when an assignment extends the array past its end.
 */
module Release {
  import opened Strings

  datatype Slot = Hole | Num(n: nat) | NaN

  const MAJOR: string := "major"
  const MINOR: string := "minor"
  const PATCH: string := "patch"

  predicate IsDigits(s: string) {
    forall i :: 0 <= i < |s| ==> IsDigit(s[i])
  }

  /** `Number(s)` for a version component: the empty string is 0, a string of
      decimal digits its value, anything else `NaN`. */
  function ToNumber(s: string): Slot {
    if IsDigits(s) then Num(DigitsValue(s)) else NaN
  }

  /** `x + 1`; a hole reads as `undefined`, and `undefined + 1` is `NaN`. */
  function Increment(x: Slot): Slot {
    if x.Num? then Num(x.n + 1) else NaN
  }

  /** `parts[i]`; past the end it reads as a hole. */
  function Get(parts: seq<Slot>, i: nat): Slot {
    if i < |parts| then parts[i] else Hole
  }

  function Holes(n: nat): (r: seq<Slot>)
    ensures |r| == n && forall i :: 0 <= i < n ==> r[i] == Hole
  {
    seq(n, _ => Hole)
  }

  /** `parts[i] = v`, extending the array with holes when `i` is past its end. */
  function Put(parts: seq<Slot>, i: nat, v: Slot): (r: seq<Slot>)
    ensures |r| == if i < |parts| then |parts| else i + 1
    ensures r[i] == v
    ensures forall j :: 0 <= j < |r| && j != i ==> r[j] == Get(parts, j)
  {
    if i < |parts| then parts[i := v] else parts + Holes(i - |parts|) + [v]
  }

  /** `String` of an array slot inside `join`: a hole joins as the empty string. */
  function SlotString(x: Slot): string {
    match x
    case Hole => ""
    case Num(n) => NatToString(n)
    case NaN => "NaN"
  }

  function Components(version: string): seq<Slot> {
    var pieces := SplitOn(version, ".");
    seq(|pieces|, i requires 0 <= i < |pieces| => ToNumber(pieces[i]))
  }

  function VersionString(parts: seq<Slot>): string {
    Join(seq(|parts|, i requires 0 <= i < |parts| => SlotString(parts[i])), ".")
  }

  function Max(a: nat, b: nat): nat {
    if a < b then b else a
  }

  /** The bumped components, position by position: "major" increments the
      first and zeroes the next two, "minor" increments the second and zeroes
      the third, and any other type increments the third. */
  function Bumped(parts: seq<Slot>, bumpType: string): (r: seq<Slot>) {
    seq(Max(|parts|, 3), i requires 0 <= i < Max(|parts|, 3) =>
      if bumpType == MAJOR then
        (if i == 0 then Increment(Get(parts, 0)) else if i <= 2 then Num(0) else parts[i])
      else if bumpType == MINOR then
        (if i == 1 then Increment(Get(parts, 1)) else if i == 2 then Num(0) else Get(parts, i))
      else
        (if i == 2 then Increment(Get(parts, 2)) else Get(parts, i)))
  }

  /** The statements of `bumpVersion` that update `parts` in place. */
  method BumpParts(parts: seq<Slot>, bumpType: string) returns (bumped: seq<Slot>)
    ensures bumped == Bumped(parts, bumpType)
  {
    bumped := parts;
    if bumpType == MAJOR {
      bumped := Put(bumped, 0, Increment(Get(bumped, 0)));
      bumped := Put(bumped, 1, Num(0));
      bumped := Put(bumped, 2, Num(0));
    } else if bumpType == MINOR {
      bumped := Put(bumped, 1, Increment(Get(bumped, 1)));
      bumped := Put(bumped, 2, Num(0));
    } else {
      bumped := Put(bumped, 2, Increment(Get(bumped, 2)));
    }
  }

  /** `bumpVersion(type)` for the version currently in the package file. */
  function NextVersion(current: string, bumpType: string): string {
    VersionString(Bumped(Components(current), bumpType))
  }

  method BumpVersion(current: string, bumpType: string) returns (version: string)
    ensures version == NextVersion(current, bumpType)
  {
    var parts := Components(current);
    var bumped := BumpParts(parts, bumpType);
    version := VersionString(bumped);
  }

  /** The type the script bumps by: its first argument, or "patch" when that
      is missing or empty. */
  function VersionType(args: seq<string>): string {
    if args == [] || args[0] == "" then PATCH else args[0]
  }

  // ---------------------------------------------------------------------
  // Properties of the bump

  /** No arguments means a patch bump. */
  lemma DefaultIsPatch(args: seq<string>)
    requires args == [] || args[0] == ""
    ensures VersionType(args) == PATCH
  {
  }

  /** An unrecognised type bumps like "patch". */
  lemma UnknownTypeIsPatch(parts: seq<Slot>, bumpType: string)
    requires bumpType != MAJOR && bumpType != MINOR
    ensures Bumped(parts, bumpType) == Bumped(parts, PATCH)
  {
  }

  /** The bump keeps at least three components and never touches those past
      the third. */
  lemma BumpedShape(parts: seq<Slot>, bumpType: string)
    ensures |Bumped(parts, bumpType)| == Max(|parts|, 3)
    ensures forall i :: 3 <= i < |parts| ==> Bumped(parts, bumpType)[i] == parts[i]
  {
  }

  lemma NatComponent(n: nat)
    ensures IsDigits(NatToString(n)) && ToNumber(NatToString(n)) == Num(n)
    ensures '.' !in NatToString(n)
  {
    DigitsValueOfNatToString(n);
  }

  /** Reading back a version written from numbers gives those numbers. */
  lemma ComponentsOfNumbers(ns: seq<nat>)
    requires |ns| >= 1
    ensures Components(Join(seq(|ns|, i requires 0 <= i < |ns| => NatToString(ns[i])), ".")) ==
            seq(|ns|, i requires 0 <= i < |ns| => Num(ns[i]))
  {
    var pieces := seq(|ns|, i requires 0 <= i < |ns| => NatToString(ns[i]));
    forall i | 0 <= i < |ns| ensures '.' !in pieces[i] && ToNumber(pieces[i]) == Num(ns[i]) {
      NatComponent(ns[i]);
    }
    SplitOnJoin(pieces, '.');
  }

  /** Writing components and splitting the result again gives one piece per
      component. */
  lemma VersionStringPieces(parts: seq<Slot>)
    requires |parts| >= 1
    ensures |SplitOn(VersionString(parts), ".")| == |parts|
  {
    var pieces := seq(|parts|, i requires 0 <= i < |parts| => SlotString(parts[i]));
    forall i | 0 <= i < |parts| ensures '.' !in pieces[i] {
      if parts[i].Num? {
        NatComponent(parts[i].n);
      }
    }
    SplitOnJoin(pieces, '.');
  }

  /** The new version has as many dot-separated components as the old one,
      or three if it had fewer. */
  lemma ComponentCount(current: string, bumpType: string)
    ensures |SplitOn(NextVersion(current, bumpType), ".")| == Max(|SplitOn(current, ".")|, 3)
  {
    VersionStringPieces(Bumped(Components(current), bumpType));
  }

  /** On a version M.m.p: "major" gives (M+1).0.0, "minor" M.(m+1).0, and
      "patch" or any other type M.m.(p+1). */
  lemma SemanticBump(major: nat, minor: nat, patch: nat, bumpType: string)
    ensures var v := NatToString(major) + "." + NatToString(minor) + "." + NatToString(patch);
            NextVersion(v, bumpType) ==
              if bumpType == MAJOR then NatToString(major + 1) + ".0.0"
              else if bumpType == MINOR then NatToString(major) + "." + NatToString(minor + 1) + ".0"
              else NatToString(major) + "." + NatToString(minor) + "." + NatToString(patch + 1)
  {
    var v := NatToString(major) + "." + NatToString(minor) + "." + NatToString(patch);
    ComponentsOfTriple(major, minor, patch);
    var b := Bumped([Num(major), Num(minor), Num(patch)], bumpType);
    assert b == [b[0], b[1], b[2]];
    VersionStringOfTriple(b[0], b[1], b[2]);
    assert NatToString(0) == "0";
  }

  lemma ComponentsOfTriple(major: nat, minor: nat, patch: nat)
    ensures Components(NatToString(major) + "." + NatToString(minor) + "." + NatToString(patch)) ==
            [Num(major), Num(minor), Num(patch)]
  {
    NatComponent(major);
    NatComponent(minor);
    NatComponent(patch);
    ComponentsOfThree(NatToString(major), NatToString(minor), NatToString(patch));
  }

  lemma ComponentsOfThree(a: string, b: string, c: string)
    requires '.' !in a && '.' !in b && '.' !in c
    ensures Components(a + "." + b + "." + c) == [ToNumber(a), ToNumber(b), ToNumber(c)]
  {
    SplitThree(a, b, c);
  }

  lemma SplitThree(a: string, b: string, c: string)
    requires '.' !in a && '.' !in b && '.' !in c
    ensures SplitOn(a + "." + b + "." + c, ".") == [a, b, c]
  {
    var dot := ['.'];
    assert "." == dot;
    SplitOnFreePrefix(a, '.', b + dot + c);
    SplitOnFreePrefix(b, '.', c);
    SplitOnFreePrefix(c, '.', []);
    assert a + "." + b + "." + c == a + dot + (b + dot + c);
  }

  lemma VersionStringOfTriple(x: Slot, y: Slot, z: Slot)
    ensures VersionString([x, y, z]) == SlotString(x) + "." + SlotString(y) + "." + SlotString(z)
  {
    var parts := [x, y, z];
    var shown := seq(|parts|, i requires 0 <= i < |parts| => SlotString(parts[i]));
    assert shown == [SlotString(x), SlotString(y), SlotString(z)];
    JoinThree(SlotString(x), SlotString(y), SlotString(z));
  }

  lemma JoinThree(a: string, b: string, c: string)
    ensures Join([a, b, c], ".") == a + "." + b + "." + c
  {
    JoinCons(b, [c], ".");
    assert [b, c] == [b] + [c];
    JoinCons(a, [b, c], ".");
    assert [a, b, c] == [a] + [b, c];
  }

  /** A two-component version gains a third: "1.2" bumped by "patch" becomes
      "1.2.NaN", because the missing third component reads as `undefined`. */
  lemma ShortVersion(major: nat, minor: nat)
    ensures Bumped([Num(major), Num(minor)], PATCH) == [Num(major), Num(minor), NaN]
    ensures Bumped([Num(major), Num(minor)], MAJOR) == [Num(major + 1), Num(0), Num(0)]
  {
  }
}
