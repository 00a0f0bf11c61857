/** OperatingSystem.kt: the platform family, decided once from the `os.name`
    system property by case-insensitive prefix tests, "mac" first, then
    "windows", with everything else mapping to `Other`. */
module OperatingSystems {

  datatype OperatingSystem = Mac | Windows | Other

  const MacPrefix := "mac"
  const WindowsPrefix := "windows"

  /** ASCII upper-casing: 'a'..'z' to 'A'..'Z', every other character unchanged. */
  function UpperAscii(c: char): char
  {
    if 'a' <= c <= 'z' then (c as int - 'a' as int + 'A' as int) as char else c
  }

  /** ASCII lower-casing: 'A'..'Z' to 'a'..'z', every other character unchanged. */
  function LowerAscii(c: char): char
  {
    if 'A' <= c <= 'Z' then (c as int - 'A' as int + 'a' as int) as char else c
  }

  /** The character comparison used by `startsWith(prefix, ignoreCase = true)`:
      equal, or equal once upper-cased, or equal once upper-cased and then
      lower-cased. With ASCII case folding this is equality of the
      lower-cased characters, so it is an equivalence. */
  predicate CharEqualsIgnoreCase(a: char, b: char): (r: bool)
    ensures r <==> LowerAscii(a) == LowerAscii(b)
  {
    a == b || UpperAscii(a) == UpperAscii(b) || LowerAscii(UpperAscii(a)) == LowerAscii(UpperAscii(b))
  }

  /** `s.startsWith(prefix, ignoreCase = true)`: false when `prefix` is longer
      than `s`, otherwise a character-by-character comparison ignoring case. */
  predicate StartsWithIgnoreCase(s: string, prefix: string): (r: bool)
    ensures r <==> |prefix| <= |s| && forall i :: 0 <= i < |prefix| ==> LowerAscii(s[i]) == LowerAscii(prefix[i])
  {
    |prefix| <= |s| && forall i :: 0 <= i < |prefix| ==> CharEqualsIgnoreCase(s[i], prefix[i])
  }

  /** `determineCurrentOperatingSystem`, given the value of `os.name`. */
  function DetermineCurrentOperatingSystem(osName: string): (os: OperatingSystem)
    ensures os == Mac <==> StartsWithIgnoreCase(osName, MacPrefix)
    ensures os == Windows <==> !StartsWithIgnoreCase(osName, MacPrefix) && StartsWithIgnoreCase(osName, WindowsPrefix)
    ensures os == Other <==> !StartsWithIgnoreCase(osName, MacPrefix) && !StartsWithIgnoreCase(osName, WindowsPrefix)
  {
    if StartsWithIgnoreCase(osName, MacPrefix) then Mac
    else if StartsWithIgnoreCase(osName, WindowsPrefix) then Windows
    else Other
  }

  /** The companion object: `current` is a `val` initialised once from the
      property and never reassigned. */
  class Companion {
    const current: OperatingSystem

    constructor (osName: string)
      ensures current == DetermineCurrentOperatingSystem(osName)
    {
      current := DetermineCurrentOperatingSystem(osName);
    }
  }

  /** Changes the ASCII case of every character of `s`: `upper[i]` says whether
      character i is upper-cased or lower-cased. */
  function Recase(s: string, upper: seq<bool>): (r: string)
    requires |upper| == |s|
    ensures |r| == |s|
  {
    if s == [] then []
    else [if upper[0] then UpperAscii(s[0]) else LowerAscii(s[0])] + Recase(s[1..], upper[1..])
  }

  lemma {:induction false} RecaseAt(s: string, upper: seq<bool>, i: nat)
    requires |upper| == |s| && i < |s|
    ensures Recase(s, upper)[i] == if upper[i] then UpperAscii(s[i]) else LowerAscii(s[i])
  {
    if i > 0 {
      RecaseAt(s[1..], upper[1..], i - 1);
    }
  }

  /** The classification does not depend on the ASCII case of the name: any
      re-casing of `os.name` yields the same platform. */
  lemma RecaseKeepsOperatingSystem(osName: string, upper: seq<bool>)
    requires |upper| == |osName|
    ensures DetermineCurrentOperatingSystem(Recase(osName, upper)) == DetermineCurrentOperatingSystem(osName)
  {
    var t := Recase(osName, upper);
    forall i | 0 <= i < |osName|
      ensures LowerAscii(t[i]) == LowerAscii(osName[i])
    {
      RecaseAt(osName, upper, i);
    }
    SameLowerSamePrefix(osName, t, MacPrefix);
    SameLowerSamePrefix(osName, t, WindowsPrefix);
  }

  /** Two names that agree up to ASCII case agree on every case-insensitive
      prefix test. */
  lemma SameLowerSamePrefix(s: string, t: string, prefix: string)
    requires |s| == |t|
    requires forall i :: 0 <= i < |s| ==> LowerAscii(s[i]) == LowerAscii(t[i])
    ensures StartsWithIgnoreCase(s, prefix) <==> StartsWithIgnoreCase(t, prefix)
  {
  }

  /** Typical values of `os.name` for macOS; the Mac test comes first, so a
      name that mentions Windows after the Mac prefix is still Mac. */
  lemma MacExamples()
    ensures DetermineCurrentOperatingSystem("Mac OS X") == Mac
    ensures DetermineCurrentOperatingSystem("MAC") == Mac
    ensures DetermineCurrentOperatingSystem("macwindows") == Mac
  {
  }

  lemma WindowsExamples()
    ensures DetermineCurrentOperatingSystem("Windows 10") == Windows
    ensures DetermineCurrentOperatingSystem("wInDoWs Server 2019") == Windows
  {
    assert !CharEqualsIgnoreCase("Windows 10"[0], MacPrefix[0]);
    assert !CharEqualsIgnoreCase("wInDoWs Server 2019"[0], MacPrefix[0]);
  }

  /** Other names, among them the empty name and names shorter than a prefix. */
  lemma OtherExamples()
    ensures DetermineCurrentOperatingSystem("Linux") == Other
    ensures DetermineCurrentOperatingSystem("") == Other
    ensures DetermineCurrentOperatingSystem("ma") == Other
    ensures DetermineCurrentOperatingSystem("window") == Other
  {
    assert !CharEqualsIgnoreCase("window"[0], MacPrefix[0]);
    assert !CharEqualsIgnoreCase("Linux"[0], MacPrefix[0]) && !CharEqualsIgnoreCase("Linux"[0], WindowsPrefix[0]);
  }
}
