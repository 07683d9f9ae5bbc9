/** version.go: the package version string. */
module Version {
  import opened Common
  import Text

  const MajorVersion := 0
  const MinorVersion := 0
  const PatchVersion := 0
  const ReleaseLevel := "final"
  const SerialNumber := 0

  /** `Version(short)` for arbitrary version constants. The patch segment,
      when present, renders the minor number, as the source does. */
  function VersionOf(major: int, minor: int, patch: int, level: string, serial: int, short: bool): (r: string)
    ensures Text.IntToString(major) + "." + Text.IntToString(minor) <= r
    ensures patch <= 0 && (short || level !in {"alpha", "beta"}) ==>
              r == Text.IntToString(major) + "." + Text.IntToString(minor)
  {
    var vers := Text.IntToString(major) + "." + Text.IntToString(minor);
    var vers := if patch > 0 then vers + "." + Text.IntToString(minor) else vers;
    if short then vers
    else if level == "alpha" then vers + "a" + Text.IntToString(serial)
    else if level == "beta" then vers + "b" + Text.IntToString(serial)
    else vers
  }

  /** `Version(short)` with the package's constants: "0.0" in both forms. */
  function Version(short: bool): (r: string)
    ensures r == "0.0"
  {
    assert Text.IntToString(0) == "0";
    VersionOf(MajorVersion, MinorVersion, PatchVersion, ReleaseLevel, SerialNumber, short)
  }

  /** The shape of the version string: it starts with "major.minor"; the
      short form is a prefix of the long one and equal to it unless the
      release level is alpha or beta, which add "a<serial>" or "b<serial>";
      and the value of a positive patch number never shows. */
  lemma VersionShape(major: int, minor: int, patch: int, level: string, serial: int, short: bool)
    ensures Text.IntToString(major) + "." + Text.IntToString(minor) <= VersionOf(major, minor, patch, level, serial, short)
    ensures VersionOf(major, minor, patch, level, serial, true) <= VersionOf(major, minor, patch, level, serial, false)
    ensures level != "alpha" && level != "beta" ==>
              VersionOf(major, minor, patch, level, serial, true) == VersionOf(major, minor, patch, level, serial, false)
    ensures level == "alpha" ==>
              VersionOf(major, minor, patch, level, serial, false) ==
              VersionOf(major, minor, patch, level, serial, true) + "a" + Text.IntToString(serial)
    ensures level == "beta" ==>
              VersionOf(major, minor, patch, level, serial, false) ==
              VersionOf(major, minor, patch, level, serial, true) + "b" + Text.IntToString(serial)
    ensures patch > 0 ==> forall p :: p > 0 ==>
              VersionOf(major, minor, p, level, serial, short) == VersionOf(major, minor, patch, level, serial, short)
  {
    var head := Text.IntToString(major) + "." + Text.IntToString(minor);
    var vers := if patch > 0 then head + "." + Text.IntToString(minor) else head;
    assert head <= vers;
    var long := VersionOf(major, minor, patch, level, serial, false);
    assert vers <= long;
  }

  /** A decimal rendering holds no '.'. */
  lemma NoDotInDecimal(n: int)
    ensures '.' !in Text.IntToString(n)
  {
    var s := Text.IntToString(n);
    var digits := Text.NatToString(if n < 0 then -n else n);
    assert forall k :: 0 <= k < |digits| ==> digits[k] != '.';
    if n < 0 {
      assert s == "-" + digits;
      assert forall k :: 0 <= k < |s| ==> s[k] != '.';
    } else {
      assert s == digits;
    }
  }

  /** Decimal renderings joined by '.' split back into those renderings,
      and each reads back as its number. */
  lemma {:induction false} DottedParses(ns: seq<int>)
    requires |ns| > 0
    ensures var parts := Text.Split(Dotted(ns), '.');
      |parts| == |ns| && forall k :: 0 <= k < |ns| ==> Text.ParseInt(parts[k]) == Some(ns[k])
  {
    var strs := seq(|ns|, k requires 0 <= k < |ns| => Text.IntToString(ns[k]));
    forall k | 0 <= k < |ns|
      ensures '.' !in strs[k] && Text.ParseInt(strs[k]) == Some(ns[k])
    {
      NoDotInDecimal(ns[k]);
      Text.IntToStringRoundTrip(ns[k]);
    }
    DottedIsJoin(ns);
    Text.SplitJoin(strs, '.');
  }

  /** Decimal renderings joined by '.'. */
  function Dotted(ns: seq<int>): string
  {
    if |ns| == 0 then ""
    else if |ns| == 1 then Text.IntToString(ns[0])
    else Text.IntToString(ns[0]) + "." + Dotted(ns[1..])
  }

  lemma {:induction false} DottedIsJoin(ns: seq<int>)
    ensures Dotted(ns) == Text.Join(seq(|ns|, k requires 0 <= k < |ns| => Text.IntToString(ns[k])), ".")
  {
    var strs := seq(|ns|, k requires 0 <= k < |ns| => Text.IntToString(ns[k]));
    if |ns| > 1 {
      DottedIsJoin(ns[1..]);
      assert strs[1..] == seq(|ns[1..]|, k requires 0 <= k < |ns[1..]| => Text.IntToString(ns[1..][k]));
    }
  }

  /** The short version is the dotted rendering of major, minor and, for a
      positive patch, minor again. */
  lemma ShortVersionIsDotted(major: int, minor: int, patch: int, level: string, serial: int)
    ensures VersionOf(major, minor, patch, level, serial, true) ==
              Dotted(if patch > 0 then [major, minor, minor] else [major, minor])
  {
    var b := Text.IntToString(minor);
    assert Dotted([minor]) == b;
    if patch > 0 {
      assert [major, minor, minor][1..] == [minor, minor];
      assert [minor, minor][1..] == [minor];
      assert Dotted([minor, minor]) == b + "." + b;
    } else {
      assert [major, minor][1..] == [minor];
    }
  }

  /** The short version parses back: split at '.', it is the major and minor
      numbers (then the minor number again when the patch is positive), each
      read back as the number it renders. */
  lemma ShortVersionParses(major: int, minor: int, patch: int, level: string, serial: int)
    ensures var parts := Text.Split(VersionOf(major, minor, patch, level, serial, true), '.');
      && |parts| == (if patch > 0 then 3 else 2)
      && Text.ParseInt(parts[0]) == Some(major)
      && Text.ParseInt(parts[1]) == Some(minor)
      && (patch > 0 ==> Text.ParseInt(parts[2]) == Some(minor))
  {
    ShortVersionIsDotted(major, minor, patch, level, serial);
    DottedParses(if patch > 0 then [major, minor, minor] else [major, minor]);
  }
}
