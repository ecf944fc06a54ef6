/** The two regular expressions `guess_package` searches descriptions with,
    written as scanners:
      `The ([\w:.:\-]+) package`   and   `([\w:.:\-]+) for [A-Za-z]+`.
    Each pattern's meaning is stated as a predicate on a start position and
    a group length, and each search is proved to return the group of the
    leftmost match, as `re.search(...).group(1)` does. */
module Patterns {
  import opened Json

  /** The character class `[\w:.:\-]`, with `\w` read as ASCII letters,
      digits and underscore. */
  predicate IsNameChar(c: char) {
    ('a' <= c <= 'z') || ('A' <= c <= 'Z') || ('0' <= c <= '9') || c == '_' || c == ':' || c == '.' || c == '-'
  }

  predicate IsAsciiLetter(c: char) {
    ('a' <= c <= 'z') || ('A' <= c <= 'Z')
  }

  /** `The ([\w:.:\-]+) package` matches `s` at `i` with a group of `n`
      characters. */
  ghost predicate ThePackageMatch(s: string, i: int, n: int) {
    && 0 <= i && 1 <= n && i + 4 + n + 8 <= |s|
    && s[i..i + 4] == "The "
    && (forall k :: i + 4 <= k < i + 4 + n ==> IsNameChar(s[k]))
    && s[i + 4 + n..i + 4 + n + 8] == " package"
  }

  /** `([\w:.:\-]+) for [A-Za-z]+` matches `s` at `i` with a group of `n`
      characters (one letter after " for " is all the `+` needs). */
  ghost predicate ForMatch(s: string, i: int, n: int) {
    && 0 <= i && 1 <= n && i + n + 6 <= |s|
    && (forall k :: i <= k < i + n ==> IsNameChar(s[k]))
    && s[i + n..i + n + 5] == " for "
    && IsAsciiLetter(s[i + n + 5])
  }

  /** End of the run of name characters starting at `j`: the greedy extent
      of `[\w:.:\-]+`. */
  function RunEnd(s: string, j: nat): (e: nat)
    requires j <= |s|
    ensures j <= e <= |s|
    ensures forall k :: j <= k < e ==> IsNameChar(s[k])
    ensures e < |s| ==> !IsNameChar(s[e])
    decreases |s| - j
  {
    if j < |s| && IsNameChar(s[j]) then RunEnd(s, j + 1) else j
  }

  /** A run of `n` name characters at `j` followed by a character outside
      the class ends exactly where `RunEnd` says. */
  lemma RunEndOf(s: string, j: nat, n: nat)
    requires j + n < |s|
    requires forall k :: j <= k < j + n ==> IsNameChar(s[k])
    requires !IsNameChar(s[j + n])
    ensures RunEnd(s, j) == j + n
  {
  }

  /** At one start position the group is unique: the class excludes the
      space that must follow it. */
  lemma ThePackageGroupUnique(s: string, i: int, n: int, m: int)
    requires ThePackageMatch(s, i, n) && ThePackageMatch(s, i, m)
    ensures n == m
  {
    assert s[i + 4 + n] == s[i + 4 + n..i + 4 + n + 8][0] == ' ';
    assert s[i + 4 + m] == s[i + 4 + m..i + 4 + m + 8][0] == ' ';
  }

  lemma ForGroupUnique(s: string, i: int, n: int, m: int)
    requires ForMatch(s, i, n) && ForMatch(s, i, m)
    ensures n == m
  {
    assert s[i + n] == s[i + n..i + n + 5][0] == ' ';
    assert s[i + m] == s[i + m..i + m + 5][0] == ' ';
  }

  /** The group of `The (...) package` if it matches at `i`. */
  function ThePackageAt(s: string, i: nat): (r: Option<string>)
    requires i <= |s|
    ensures r.Some? <==> exists n :: ThePackageMatch(s, i, n)
    ensures r.Some? ==> ThePackageMatch(s, i, |r.value|) && r.value == s[i + 4..i + 4 + |r.value|]
  {
    ThePackageAtComplete(s, i);
    if i + 4 <= |s| && s[i..i + 4] == "The " then
      var e := RunEnd(s, i + 4);
      if e > i + 4 && e + 8 <= |s| && s[e..e + 8] == " package" then
        assert ThePackageMatch(s, i, e - (i + 4));
        Some(s[i + 4..e])
      else None
    else None
  }

  lemma ThePackageAtComplete(s: string, i: nat)
    requires i <= |s|
    ensures forall n :: ThePackageMatch(s, i, n) ==> RunEnd(s, i + 4) == i + 4 + n
  {
    forall n | ThePackageMatch(s, i, n)
      ensures RunEnd(s, i + 4) == i + 4 + n
    {
      assert s[i + 4 + n] == s[i + 4 + n..i + 4 + n + 8][0];
      RunEndOf(s, i + 4, n);
    }
  }

  /** The group of `(...) for [A-Za-z]+` if it matches at `i`. */
  function ForAt(s: string, i: nat): (r: Option<string>)
    requires i <= |s|
    ensures r.Some? <==> exists n :: ForMatch(s, i, n)
    ensures r.Some? ==> ForMatch(s, i, |r.value|) && r.value == s[i..i + |r.value|]
  {
    ForAtComplete(s, i);
    var e := RunEnd(s, i);
    if e > i && e + 6 <= |s| && s[e..e + 5] == " for " && IsAsciiLetter(s[e + 5]) then
      assert ForMatch(s, i, e - i);
      Some(s[i..e])
    else None
  }

  lemma ForAtComplete(s: string, i: nat)
    requires i <= |s|
    ensures forall n :: ForMatch(s, i, n) ==> RunEnd(s, i) == i + n
  {
    forall n | ForMatch(s, i, n)
      ensures RunEnd(s, i) == i + n
    {
      assert s[i + n] == s[i + n..i + n + 5][0];
      RunEndOf(s, i, n);
    }
  }

  /** `re.search(r'The ([\w:.:\-]+) package', s[from..])`, group 1: the
      group of the leftmost match, or `None` when there is none. */
  function SearchThePackage(s: string, from: nat): (r: Option<string>)
    requires from <= |s|
    ensures r.None? ==> forall i, n :: from <= i ==> !ThePackageMatch(s, i, n)
    ensures r.Some? ==> exists i, n :: from <= i && ThePackageMatch(s, i, n) && r.value == s[i + 4..i + 4 + n]
                                       && forall j, m :: from <= j < i ==> !ThePackageMatch(s, j, m)
    decreases |s| - from
  {
    if from == |s| then None
    else
      match ThePackageAt(s, from)
      case Some(g) => Some(g)
      case None =>
        var r := SearchThePackage(s, from + 1);
        assert forall n :: !ThePackageMatch(s, from, n);
        r
  }

  /** `re.search(r'([\w:.:\-]+) for [A-Za-z]+', s[from..])`, group 1. */
  function SearchFor(s: string, from: nat): (r: Option<string>)
    requires from <= |s|
    ensures r.None? ==> forall i, n :: from <= i ==> !ForMatch(s, i, n)
    ensures r.Some? ==> exists i, n :: from <= i && ForMatch(s, i, n) && r.value == s[i..i + n]
                                       && forall j, m :: from <= j < i ==> !ForMatch(s, j, m)
    decreases |s| - from
  {
    if from == |s| then None
    else
      match ForAt(s, from)
      case Some(g) => Some(g)
      case None =>
        var r := SearchFor(s, from + 1);
        assert forall n :: !ForMatch(s, from, n);
        r
  }

  /** Both searches return a non-empty group, so `guess_package() or 'n/a'`
      takes the guess whenever there is one. */
  lemma GroupsAreNonEmpty(s: string)
    ensures SearchThePackage(s, 0).Some? ==> |SearchThePackage(s, 0).value| >= 1
    ensures SearchFor(s, 0).Some? ==> |SearchFor(s, 0).value| >= 1
  {
  }

  /** A description that opens with "The X package" guesses X: for
      "The openssl package before 1.1 is vulnerable", "openssl". */
  lemma LeadingThePackage(name: string, rest: string)
    requires |name| >= 1 && forall k :: 0 <= k < |name| ==> IsNameChar(name[k])
    ensures SearchThePackage("The " + name + " package" + rest, 0) == Some(name)
  {
    var s := "The " + name + " package" + rest;
    var n := |name|;
    LeadingMatch(name, rest);
    var r := ThePackageAt(s, 0);
    ThePackageGroupUnique(s, 0, |r.value|, n);
    assert r.value == s[4..4 + n] == name;
  }

  /** "The X package…" matches at 0 with X as its group. */
  lemma LeadingMatch(name: string, rest: string)
    requires |name| >= 1 && forall k :: 0 <= k < |name| ==> IsNameChar(name[k])
    ensures ThePackageMatch("The " + name + " package" + rest, 0, |name|)
    ensures ("The " + name + " package" + rest)[4..4 + |name|] == name
  {
    var s := "The " + name + " package" + rest;
    var n := |name|;
    assert s[0..4] == "The ";
    assert s[4..4 + n] == name;
    forall k | 4 <= k < 4 + n
      ensures IsNameChar(s[k])
    {
      assert s[k] == name[k - 4];
    }
    assert s[4 + n..4 + n + 8] == " package";
  }
}
