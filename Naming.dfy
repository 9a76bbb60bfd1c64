/**
 * Branch-derived identifiers: the branch suffix used in resource names, the
 * Docker-safe image tag, the 31-multiplier string hash over the suffix and the
 * host port derived from it, and the resource names built from them.
 *
 * A `char` is a Unicode scalar value; lowercasing is ASCII-only.
 */
module Naming {

  predicate IsUpperAscii(c: char) { 'A' <= c <= 'Z' }
  predicate IsLowerAscii(c: char) { 'a' <= c <= 'z' }
  predicate IsDigit(c: char) { '0' <= c <= '9' }
  predicate IsAsciiAlnum(c: char) { IsUpperAscii(c) || IsLowerAscii(c) || IsDigit(c) }

  /** The class `[a-zA-Z0-9-]` kept by the suffix rule. */
  predicate IsNameChar(c: char) { IsAsciiAlnum(c) || c == '-' }

  /** The class `[a-z0-9-]` allowed in a Docker tag. */
  predicate IsTagChar(c: char) { IsLowerAscii(c) || IsDigit(c) || c == '-' }

  predicate AllTagChars(s: string) { forall i :: 0 <= i < |s| ==> IsTagChar(s[i]) }

  /** No two adjacent dashes. */
  predicate NoDoubleDash(s: string) { forall i :: 0 <= i < |s| - 1 ==> !(s[i] == '-' && s[i + 1] == '-') }

  function LowerChar(c: char): char {
    if IsUpperAscii(c) then (c as int + 32) as char else c
  }

  /** `s.toLowerCase()`, restricted to ASCII letters. */
  function ToLowerCase(s: string): string {
    seq(|s|, i requires 0 <= i < |s| => LowerChar(s[i]))
  }

  /** `s.replace(/[^<class>]/g, "-")`: every character outside `keep` becomes a dash. */
  function DashOutside(s: string, keep: char -> bool): string {
    seq(|s|, i requires 0 <= i < |s| => if keep(s[i]) then s[i] else '-')
  }

  /**
   * `branchName.replace(/[^a-zA-Z0-9-]/g, "-").toLowerCase()`: same length as
   * the branch name, ASCII letters lowercased, digits and dashes kept, every
   * other character a dash.
   */
  function BranchSuffix(branch: string): (r: string)
    ensures |r| == |branch|
    ensures AllTagChars(r)
    ensures forall i :: 0 <= i < |r| ==>
      r[i] == (if IsUpperAscii(branch[i]) then (branch[i] as int + 32) as char
               else if IsLowerAscii(branch[i]) || IsDigit(branch[i]) || branch[i] == '-' then branch[i]
               else '-')
  {
    var r := ToLowerCase(DashOutside(branch, IsNameChar));
    assert forall i :: 0 <= i < |r| ==> r[i] == LowerChar(if IsNameChar(branch[i]) then branch[i] else '-');
    r
  }

  /** `s.replace(/^[-]+/, "")`. */
  function StripLeadingDashes(s: string): (r: string)
    ensures |r| <= |s| && r == s[|s| - |r|..]
    ensures forall i :: 0 <= i < |s| - |r| ==> s[i] == '-'
    ensures r == [] || r[0] != '-'
    decreases |s|
  {
    if |s| > 0 && s[0] == '-' then StripLeadingDashes(s[1..]) else s
  }

  /** `s.replace(/[-]+$/, "")`. */
  function StripTrailingDashes(s: string): (r: string)
    ensures |r| <= |s| && r == s[..|r|]
    ensures forall i :: |r| <= i < |s| ==> s[i] == '-'
    ensures r == [] || r[|r| - 1] != '-'
    decreases |s|
  {
    if |s| > 0 && s[|s| - 1] == '-' then StripTrailingDashes(s[..|s| - 1]) else s
  }

  /**
   * `s.replace(/^[-]+|[-]+$/g, "")`: the leading and the trailing run of dashes
   * removed. The result is a slice of `s` with only dashes before and after it,
   * it neither starts nor ends with a dash, and it is empty exactly when `s` is
   * all dashes.
   */
  function StripDashes(s: string): (r: string)
    ensures exists i, j :: (0 <= i <= j <= |s| && r == s[i..j] &&
      (forall k :: 0 <= k < i ==> s[k] == '-') && (forall k :: j <= k < |s| ==> s[k] == '-'))
    ensures r == [] || (r[0] != '-' && r[|r| - 1] != '-')
    ensures forall c :: c in r ==> c in s
    ensures r == [] <==> forall i :: 0 <= i < |s| ==> s[i] == '-'
  {
    var lead := StripLeadingDashes(s);
    var r := StripTrailingDashes(lead);
    StripBothEnds(s, lead, r);
    var lo := |s| - |lead|;
    assert lo + |r| <= |s| && r == s[lo..lo + |r|];
    r
  }

  /**
   * What `StripDashes` needs: `lead` is a suffix of `s` not starting with a dash,
   * and `r` a prefix of `lead` followed only by dashes.
   */
  lemma StripBothEnds(s: string, lead: string, r: string)
    requires |lead| <= |s| && lead == s[|s| - |lead|..]
    requires |r| <= |lead| && r == lead[..|r|]
    requires forall i :: |r| <= i < |lead| ==> lead[i] == '-'
    requires lead == [] || lead[0] != '-'
    ensures |s| - |lead| + |r| <= |s| && r == s[|s| - |lead|..|s| - |lead| + |r|]
    ensures forall k :: |s| - |lead| + |r| <= k < |s| ==> s[k] == '-'
    ensures forall c :: c in r ==> c in s
    ensures lead != [] ==> |r| > 0
  {
    var lo := |s| - |lead|;
    var hi := lo + |r|;
    assert r == s[lo..hi] by {
      forall k | 0 <= k < |r| ensures r[k] == s[lo..hi][k] {
        assert r[k] == lead[k] == s[lo + k];
      }
    }
    forall k | hi <= k < |s| ensures s[k] == '-' {
      assert s[k] == lead[k - lo];
    }
    SliceChars(s, lo);
    assert lead[0..|r|] == r;
    SliceChars(lead, 0);
    if lead != [] {
      assert lead[0] != '-';
    }
  }

  /** Every character of `s[lo..]`, and of `s[..hi]`, is a character of `s`. */
  lemma SliceChars(s: string, lo: nat)
    requires lo <= |s|
    ensures forall c :: c in s[lo..] ==> c in s
    ensures forall hi :: lo <= hi <= |s| ==> forall c :: c in s[lo..hi] ==> c in s
  {
    forall hi, c | lo <= hi <= |s| && c in s[lo..hi] ensures c in s {
      var i :| 0 <= i < hi - lo && s[lo..hi][i] == c;
      assert s[lo + i] == c;
    }
  }

  /**
   * `s.replace(/[-]+/g, "-")`: every run of dashes shortened to one dash.
   * First and last characters are kept, no two dashes end up adjacent, and a
   * string that already has no double dash is left as it is.
   */
  function CollapseDashes(s: string): (r: string)
    ensures |r| <= |s|
    ensures |r| == 0 <==> |s| == 0
    ensures |s| > 0 ==> r[0] == s[0] && r[|r| - 1] == s[|s| - 1]
    ensures NoDoubleDash(r)
    ensures forall c :: c in r ==> c in s
    ensures NoDoubleDash(s) ==> r == s
    decreases |s|
  {
    if |s| <= 1 then s
    else if s[0] == '-' && s[1] == '-' then CollapseDashes(s[1..])
    else
      var rest := CollapseDashes(s[1..]);
      assert NoDoubleDash(s) ==> NoDoubleDash(s[1..]) by {
        if NoDoubleDash(s) {
          forall i | 0 <= i < |s[1..]| - 1 ensures !(s[1..][i] == '-' && s[1..][i + 1] == '-') {
            assert s[1..][i] == s[i + 1] && s[1..][i + 1] == s[i + 2];
          }
        }
      }
      assert NoDoubleDash(s) ==> [s[0]] + s[1..] == s;
      [s[0]] + rest
  }

  /**
   * Reference for dash collapsing, index by index: the character at index `i`
   * is kept unless it is a dash right after a dash. `afterDash` says whether the
   * character before `s` was a dash.
   */
  function KeepRunHeads(s: string, afterDash: bool): string
    decreases |s|
  {
    if |s| == 0 then []
    else (if s[0] == '-' && afterDash then [] else [s[0]]) + KeepRunHeads(s[1..], s[0] == '-')
  }

  /** Collapsing dash runs keeps exactly the characters that are not a dash after a dash. */
  lemma {:induction false} CollapseDashesKeepsRunHeads(s: string)
    ensures CollapseDashes(s) == KeepRunHeads(s, false)
    decreases |s|
  {
    if |s| == 1 {
      assert KeepRunHeads(s, false) == [s[0]] + KeepRunHeads(s[1..], s[0] == '-');
      assert [s[0]] == s;
    } else if |s| > 1 {
      var t := s[1..];
      CollapseDashesKeepsRunHeads(t);
      assert t[1..] == s[2..];
      assert KeepRunHeads(s, false) == [s[0]] + KeepRunHeads(t, s[0] == '-');
      if s[0] == '-' && s[1] == '-' {
        assert KeepRunHeads(t, true) == KeepRunHeads(t[1..], true);
        assert KeepRunHeads(t, false) == [t[0]] + KeepRunHeads(t[1..], true);
      } else if s[0] == '-' {
        assert KeepRunHeads(t, true) == [t[0]] + KeepRunHeads(t[1..], false);
        assert KeepRunHeads(t, false) == [t[0]] + KeepRunHeads(t[1..], false);
      }
    }
  }

  /**
   * The Docker tag: lowercase, replace anything outside `[a-z0-9-]` by a dash,
   * strip leading and trailing dashes, collapse dash runs. The tag is made of
   * `[a-z0-9-]` only, never starts or ends with a dash and never holds `--`.
   */
  function DockerTag(branch: string): (r: string)
    ensures AllTagChars(r)
    ensures r == [] || (r[0] != '-' && r[|r| - 1] != '-')
    ensures NoDoubleDash(r)
  {
    var stripped := StrippedTagChars(branch);
    var r := CollapseDashes(stripped);
    TagCharsCarry(stripped, r);
    EdgesCarry(stripped, r);
    r
  }

  /** The first three steps of the tag: tag characters only, no dash at either end. */
  function StrippedTagChars(branch: string): (r: string)
    ensures AllTagChars(r)
    ensures r == [] || (r[0] != '-' && r[|r| - 1] != '-')
  {
    var sanitized := DashOutside(ToLowerCase(branch), IsTagChar);
    var r := StripDashes(sanitized);
    TagCharsCarry(sanitized, r);
    r
  }

  /** A step that keeps the first and the last character keeps a string free of edge dashes. */
  lemma EdgesCarry(a: string, b: string)
    requires a == [] || (a[0] != '-' && a[|a| - 1] != '-')
    requires |b| == 0 <==> |a| == 0
    requires |a| > 0 ==> b[0] == a[0] && b[|b| - 1] == a[|a| - 1]
    ensures b == [] || (b[0] != '-' && b[|b| - 1] != '-')
  {
  }

  /** A string of tag characters keeps only tag characters through a step that adds no new characters. */
  lemma TagCharsCarry(a: string, b: string)
    requires AllTagChars(a)
    requires forall x :: x in b ==> x in a
    ensures AllTagChars(b)
  {
    forall i | 0 <= i < |b| ensures IsTagChar(b[i]) {
      assert b[i] in a;
    }
  }

  /** The tag is empty exactly when the branch name has no ASCII letter or digit. */
  lemma DockerTagEmptyIff(branch: string)
    ensures DockerTag(branch) == [] <==> forall i :: 0 <= i < |branch| ==> !IsAsciiAlnum(branch[i])
  {
    var sanitized := DashOutside(ToLowerCase(branch), IsTagChar);
    forall i | 0 <= i < |branch|
      ensures sanitized[i] == '-' <==> !IsAsciiAlnum(branch[i])
    {
      assert sanitized[i] == (if IsTagChar(LowerChar(branch[i])) then LowerChar(branch[i]) else '-');
    }
  }

  /**
   * For the ASCII lowercasing modelled here, the tag is the suffix with its
   * edge dashes stripped and its dash runs collapsed.
   */
  lemma DockerTagFromSuffix(branch: string)
    ensures DockerTag(branch) == CollapseDashes(StripDashes(BranchSuffix(branch)))
  {
    var a := DashOutside(ToLowerCase(branch), IsTagChar);
    var b := BranchSuffix(branch);
    assert |a| == |b|;
    forall i | 0 <= i < |a| ensures a[i] == b[i] {
      assert a[i] == (if IsTagChar(LowerChar(branch[i])) then LowerChar(branch[i]) else '-');
    }
    assert a == b;
  }

  /** A string with no dash at either end is left alone by the stripping step. */
  lemma StripDashesKeeps(s: string)
    requires s == [] || (s[0] != '-' && s[|s| - 1] != '-')
    ensures StripDashes(s) == s
  {
    assert StripLeadingDashes(s) == s;
    assert StripTrailingDashes(s) == s;
  }

  /** Exactly the strings that satisfy the tag's own guarantees are fixed points of the pipeline. */
  lemma DockerTagFixedPoint(t: string)
    requires AllTagChars(t) && NoDoubleDash(t)
    requires t == [] || (t[0] != '-' && t[|t| - 1] != '-')
    ensures DockerTag(t) == t
  {
    var lowered := ToLowerCase(t);
    assert lowered == t by {
      forall i | 0 <= i < |t| ensures lowered[i] == t[i] {
        assert IsTagChar(t[i]);
      }
    }
    var sanitized := DashOutside(lowered, IsTagChar);
    assert sanitized == t by {
      forall i | 0 <= i < |t| ensures sanitized[i] == t[i] {
        assert IsTagChar(t[i]);
      }
    }
    StripDashesKeeps(t);
  }

  /** Running the tag pipeline on a tag gives the same tag back. */
  lemma DockerTagIdempotent(branch: string)
    ensures DockerTag(DockerTag(branch)) == DockerTag(branch)
  {
    DockerTagFixedPoint(DockerTag(branch));
  }

  // ---------------------------------------------------------------------
  // The 31-multiplier hash and the host port
  // ---------------------------------------------------------------------

  const TwoTo31: int := 0x8000_0000
  const TwoTo32: int := 0x1_0000_0000

  /** A signed 32-bit integer, the range of JavaScript's ToInt32. */
  type Int32 = x: int | -TwoTo31 <= x < TwoTo31

  /** JavaScript's ToInt32 on an integral number: wrap modulo 2^32 into the signed range. */
  function ToInt32(x: int): (r: Int32)
    ensures (r - x) % TwoTo32 == 0
  {
    var r := (x + TwoTo31) % TwoTo32 - TwoTo31;
    assert r - x == -TwoTo32 * ((x + TwoTo31) / TwoTo32);
    r
  }

  /** Adding a multiple of 2^32 does not change the wrapped value. */
  lemma ToInt32Periodic(x: int, k: int)
    ensures ToInt32(x + k * TwoTo32) == ToInt32(x)
  {
    var a, b := ToInt32(x + k * TwoTo32), ToInt32(x);
    var q1 := (x + k * TwoTo32 + TwoTo31) / TwoTo32;
    var q2 := (x + TwoTo31) / TwoTo32;
    assert a == x + k * TwoTo32 - q1 * TwoTo32;
    assert b == x - q2 * TwoTo32;
    assert a - b == (k - q1 + q2) * TwoTo32;
    assert -TwoTo32 < a - b < TwoTo32;
  }

  /** `a << 5`: both operands pass through ToInt32 and so does the result. */
  function ShiftLeft5(a: Int32): Int32 {
    ToInt32(a * 32)
  }

  /** One step of the reducer: `a = (a << 5) - a + code; return a & a;` (`a & a` is ToInt32 of `a`). */
  function HashStep(acc: Int32, unit: char): Int32 {
    ToInt32(ShiftLeft5(acc) - acc + unit as int)
  }

  /** The reducer step is the 31-multiplier step wrapped to 32 bits. */
  lemma HashStepTimes31(acc: Int32, unit: char)
    ensures HashStep(acc, unit) == ToInt32(31 * acc + unit as int)
  {
    var shifted := ShiftLeft5(acc);
    var k := (shifted - acc * 32) / TwoTo32;
    assert shifted - acc * 32 == k * TwoTo32;
    ToInt32Periodic(31 * acc + unit as int, k);
    assert shifted - acc + unit as int == 31 * acc + unit as int + k * TwoTo32;
  }

  /** `s.split("").reduce(step, 0)`: a left fold of the reducer over the characters. */
  function BranchHash(s: string): Int32
    decreases |s|
  {
    if |s| == 0 then 0 else HashStep(BranchHash(s[..|s| - 1]), s[|s| - 1])
  }

  /** Reference definition: the fold with `acc0 = 0` and `acc' = wrapInt32(31 * acc + code)`. */
  function Hash31(s: string): Int32
    decreases |s|
  {
    if |s| == 0 then 0 else ToInt32(31 * Hash31(s[..|s| - 1]) + s[|s| - 1] as int)
  }

  /** The reducer as written computes the 31-multiplier hash. */
  lemma {:induction false} BranchHashIsHash31(s: string)
    ensures BranchHash(s) == Hash31(s)
    decreases |s|
  {
    if |s| > 0 {
      BranchHashIsHash31(s[..|s| - 1]);
      HashStepTimes31(Hash31(s[..|s| - 1]), s[|s| - 1]);
    }
  }

  /** JavaScript's `%`: the remainder takes the sign of the dividend (truncating division). */
  function JsRemainder(a: int, n: int): int
    requires n > 0
  {
    if a >= 0 then a % n else -((-a) % n)
  }

  function Abs(x: int): nat { if x < 0 then -x else x }

  /** `3000 + Math.abs(h % 1000)`: always in [3000, 3999]. */
  function PortFromHash(h: Int32): (port: int)
    ensures port == 3000 + Abs(h) % 1000
    ensures 3000 <= port <= 3999
  {
    3000 + Abs(JsRemainder(h, 1000))
  }

  /** The host port of a branch: determined by the branch suffix alone. */
  function HostPort(branch: string): (port: int)
    ensures 3000 <= port <= 3999
    ensures port == 3000 + Abs(Hash31(BranchSuffix(branch))) % 1000
  {
    BranchHashIsHash31(BranchSuffix(branch));
    PortFromHash(BranchHash(BranchSuffix(branch)))
  }

  /** The empty branch name hashes to 0 and so gets port 3000. */
  lemma EmptyBranchPort()
    ensures BranchSuffix("") == "" && HostPort("") == 3000
  {
    assert BranchSuffix("") == "";
  }

  /** Branch names with the same suffix share a port (the port cannot tell them apart). */
  lemma SameSuffixSamePort(a: string, b: string)
    requires BranchSuffix(a) == BranchSuffix(b)
    ensures HostPort(a) == HostPort(b)
  {
  }

  /** The default branch `dev`: suffix `dev`, tag `dev`, port 3349. */
  lemma DevBranchIdentifiers()
    ensures BranchSuffix("dev") == "dev"
    ensures DockerTag("dev") == "dev"
    ensures HostPort("dev") == 3349
  {
    DevSuffix();
    DevPort();
    DevTag();
  }

  lemma DevPort()
    ensures HostPort("dev") == 3349
  {
    DevSuffix();
    DevHash();
    assert Hash31(BranchSuffix("dev")) == 99349;
    assert Abs(99349) % 1000 == 349;
  }

  lemma DevTag()
    ensures DockerTag("dev") == "dev"
  {
    assert AllTagChars("dev") && NoDoubleDash("dev");
    DockerTagFixedPoint("dev");
  }

  lemma DevSuffix()
    ensures BranchSuffix("dev") == "dev"
  {
    var s := BranchSuffix("dev");
    assert s[0] == 'd' && s[1] == 'e' && s[2] == 'v';
  }

  lemma DevHash()
    ensures Hash31("dev") == 99349
  {
    assert "dev"[..2] == "de" && "de"[..1] == "d" && "d"[..0] == "";
    assert Hash31("d") == ToInt32(100);
    assert ToInt32(100) == 100;
    assert Hash31("de") == ToInt32(3201);
    assert ToInt32(3201) == 3201;
    assert Hash31("dev") == ToInt32(99349);
  }

  /** `Feature/X_1`: the slash and the underscore become dashes, letters are lowercased. */
  lemma FeatureBranchIdentifiers()
    ensures BranchSuffix("Feature/X_1") == "feature-x-1"
    ensures DockerTag("Feature/X_1") == "feature-x-1"
  {
    FeatureSuffix();
    FeatureTag();
  }

  lemma FeatureTag()
    ensures DockerTag("Feature/X_1") == "feature-x-1"
  {
    FeatureSuffix();
    FeatureSuffixIsClean();
    CleanSuffixIsTag("Feature/X_1");
  }

  lemma FeatureSuffix()
    ensures BranchSuffix("Feature/X_1") == "feature-x-1"
  {
    var s := BranchSuffix("Feature/X_1");
    assert s[0] == 'f' && s[1] == 'e' && s[2] == 'a' && s[3] == 't' && s[4] == 'u' && s[5] == 'r';
    assert s[6] == 'e' && s[7] == '-' && s[8] == 'x' && s[9] == '-' && s[10] == '1';
  }

  lemma FeatureSuffixIsClean()
    ensures NoDoubleDash("feature-x-1")
  {
    var s := "feature-x-1";
    forall i | 0 <= i < |s| - 1 ensures !(s[i] == '-' && s[i + 1] == '-') {
      assert s[i] != '-' || s[i + 1] != '-';
    }
  }

  /** When the suffix has no edge dash and no double dash, the tag is the suffix itself. */
  lemma CleanSuffixIsTag(branch: string)
    requires NoDoubleDash(BranchSuffix(branch))
    requires BranchSuffix(branch) == [] || (BranchSuffix(branch)[0] != '-' && BranchSuffix(branch)[|BranchSuffix(branch)| - 1] != '-')
    ensures DockerTag(branch) == BranchSuffix(branch)
  {
    DockerTagFromSuffix(branch);
    StripDashesKeeps(BranchSuffix(branch));
  }

  // ---------------------------------------------------------------------
  // Resource names
  // ---------------------------------------------------------------------

  /** `${baseName}-${branchSuffix}`: the stack name and the deployment name alike. */
  function ResourceName(base: string, suffix: string): string {
    base + "-" + suffix
  }

  /** `${baseName}-build-${branchSuffix}`. */
  function BuildName(base: string, suffix: string): string {
    base + "-build-" + suffix
  }

  /** `${serverIdBuild}_builder`. */
  function BuilderName(serverId: string): string {
    serverId + "_builder"
  }

  /** For one base name, the resource name determines the suffix, and so does the build name. */
  lemma NamesDetermineSuffix(base: string, s1: string, s2: string)
    ensures ResourceName(base, s1) == ResourceName(base, s2) ==> s1 == s2
    ensures BuildName(base, s1) == BuildName(base, s2) ==> s1 == s2
  {
    if ResourceName(base, s1) == ResourceName(base, s2) {
      assert s1 == ResourceName(base, s1)[|base| + 1..];
      assert s2 == ResourceName(base, s2)[|base| + 1..];
    }
    if BuildName(base, s1) == BuildName(base, s2) {
      assert s1 == BuildName(base, s1)[|base| + 7..];
      assert s2 == BuildName(base, s2)[|base| + 7..];
    }
  }
}
