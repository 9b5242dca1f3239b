/** `firstUppercased` and `firstCapitalized`: a string with its first
    `Character` case-mapped and the rest kept. A Swift `Character` is an
    extended grapheme cluster, which may span several code points; how many
    the first one spans is Unicode segmentation data and is a parameter
    here (`n`), as is Foundation's case mapping of a string, which may
    change the length (German sharp s uppercases to "SS"). */
module StringCase {

  /** `n` is the length, in code points, of the first `Character` of `s`:
      zero for the empty string, otherwise between one and `|s|`. */
  predicate FirstCluster(s: string, n: nat)
  {
    if |s| == 0 then n == 0 else 0 < n <= |s|
  }

  /** `prefix(1)` mapped, followed by `dropFirst()`: the first `Character`
      (the first `n` code points) mapped, the rest unchanged; empty stays
      empty. */
  function MapFirst(s: string, n: nat, mapping: string -> string): (r: string)
    requires FirstCluster(s, n)
    ensures |s| == 0 ==> r == ""
    ensures |s| > 0 ==> |r| == |mapping(s[..n])| + |s| - n
                        && r[..|mapping(s[..n])|] == mapping(s[..n])
                        && r[|mapping(s[..n])|..] == s[n..]
  {
    if |s| == 0 then "" else mapping(s[..n]) + s[n..]
  }

  /** `firstUppercased`, for Foundation's `uppercased()` as `upper`. */
  function FirstUppercased(s: string, n: nat, upper: string -> string): (r: string)
    requires FirstCluster(s, n)
    ensures r == MapFirst(s, n, upper)
  {
    MapFirst(s, n, upper)
  }

  /** `firstCapitalized`, for Foundation's `capitalized` as `capitalized`. */
  function FirstCapitalized(s: string, n: nat, capitalized: string -> string): (r: string)
    requires FirstCluster(s, n)
    ensures r == MapFirst(s, n, capitalized)
  {
    MapFirst(s, n, capitalized)
  }

  /** A first `Character` that the mapping keeps leaves the whole string as
      it was. */
  lemma FixedFirstCharacter(s: string, n: nat, mapping: string -> string)
    requires FirstCluster(s, n) && |s| > 0 && mapping(s[..n]) == s[..n]
    ensures MapFirst(s, n, mapping) == s
  {
    assert s == s[..n] + s[n..];
  }

  /** Mapping the first `Character` of an already mapped string again
      changes nothing when the mapped `Character` is again the first one of
      the result and the mapping keeps it. */
  lemma MapFirstIdempotent(s: string, n: nat, mapping: string -> string)
    requires FirstCluster(s, n) && |s| > 0 && |mapping(s[..n])| > 0
    requires mapping(mapping(s[..n])) == mapping(s[..n])
    ensures var r := MapFirst(s, n, mapping);
            FirstCluster(r, |mapping(s[..n])|)
            && MapFirst(r, |mapping(s[..n])|, mapping) == r
  {
    var r := MapFirst(s, n, mapping);
    var m := |mapping(s[..n])|;
    assert r[..m] == mapping(s[..n]);
    assert r == r[..m] + r[m..];
  }
}
