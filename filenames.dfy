/**
 * File names for set files: a condition's name with every character a
 * file system might object to replaced (safeFileName), then made unique
 * among the names already used in this export (uniqueSafeFileName).
 */
module FileNames {
  import opened Text

  /** isalnum in the C locale, or one of `-`, `_`, `.`. */
  predicate IsSafeChar(c: char) {
    ('a' <= c <= 'z') || ('A' <= c <= 'Z') || ('0' <= c <= '9') || c == '-' || c == '_' || c == '.'
  }

  /** What the sanitising loop makes of one character. */
  function SafeChar(c: char): char {
    if IsSafeChar(c) then c else '_'
  }

  /** The name with each unsafe character replaced by `_`. */
  function Sanitized(s: string): string {
    seq(|s|, i requires 0 <= i < |s| => SafeChar(s[i]))
  }

  /**
   * Sanitising keeps the length, leaves safe characters as they are, turns
   * every other character into `_`, and so leaves only safe characters.
   */
  lemma SanitizedShape(s: string)
    ensures |Sanitized(s)| == |s|
    ensures forall i :: 0 <= i < |s| ==> IsSafeChar(Sanitized(s)[i])
    ensures forall i :: 0 <= i < |s| && IsSafeChar(s[i]) ==> Sanitized(s)[i] == s[i]
    ensures forall i :: 0 <= i < |s| && !IsSafeChar(s[i]) ==> Sanitized(s)[i] == '_'
  {
  }

  /** A name that is already safe is its own sanitised form; in particular sanitising twice changes nothing. */
  lemma SanitizedFixesSafeNames(s: string)
    ensures (forall i :: 0 <= i < |s| ==> IsSafeChar(s[i])) <==> Sanitized(s) == s
    ensures Sanitized(Sanitized(s)) == Sanitized(s)
  {
    if Sanitized(s) == s {
      forall i | 0 <= i < |s| ensures IsSafeChar(s[i]) {
        assert Sanitized(s)[i] == s[i];
      }
    }
  }

  /** safeFileName: sanitise `unsafeName` in place, then append `suffix` unchanged. */
  method SafeFileName(unsafeName: string, suffix: string := "") returns (safeName: string)
    ensures safeName == Sanitized(unsafeName) + suffix
  {
    safeName := unsafeName;
    var i := 0;
    while i < |safeName|
      invariant |safeName| == |unsafeName| && 0 <= i <= |safeName|
      invariant forall j :: 0 <= j < i ==> safeName[j] == SafeChar(unsafeName[j])
      invariant forall j :: i <= j < |safeName| ==> safeName[j] == unsafeName[j]
    {
      if !IsSafeChar(safeName[i]) {
        safeName := safeName[i := '_'];
      }
      i := i + 1;
    }
    assert safeName == Sanitized(unsafeName);
    safeName := safeName + suffix;
  }

  /** The k-th name tried for `base`: the base itself, then base-1, base-2, … */
  function Candidate(base: string, k: nat): string {
    if k == 0 then base else base + "-" + NatToString(k)
  }

  /** Different attempts produce different names. */
  lemma CandidateInjective(base: string, j: nat, k: nat)
    requires Candidate(base, j) == Candidate(base, k)
    ensures j == k
  {
    NatToStringRoundTrip(j);
    NatToStringRoundTrip(k);
    if j != 0 && k != 0 {
      var p := |base| + 1;
      assert Candidate(base, j)[p..] == NatToString(j);
      assert Candidate(base, k)[p..] == NatToString(k);
      NatToStringInjective(j, k);
    }
  }

  /** The names tried before attempt n. */
  function Tried(base: string, n: nat): set<string>
    decreases n
  {
    if n == 0 then {} else Tried(base, n - 1) + {Candidate(base, n - 1)}
  }

  lemma {:induction false} TriedHasAllBefore(base: string, n: nat)
    ensures forall j :: 0 <= j < n ==> Candidate(base, j) in Tried(base, n)
    ensures forall s :: s in Tried(base, n) ==> exists j :: 0 <= j < n && s == Candidate(base, j)
    decreases n
  {
    if n > 0 {
      TriedHasAllBefore(base, n - 1);
      assert Tried(base, n) == Tried(base, n - 1) + {Candidate(base, n - 1)};
      forall j | 0 <= j < n ensures Candidate(base, j) in Tried(base, n) {
        if j < n - 1 {
          assert Candidate(base, j) in Tried(base, n - 1);
        }
      }
      forall s | s in Tried(base, n) ensures exists j :: 0 <= j < n && s == Candidate(base, j) {
        if s != Candidate(base, n - 1) {
          var j :| 0 <= j < n - 1 && s == Candidate(base, j);
          assert 0 <= j < n && s == Candidate(base, j);
        }
      }
    }
  }

  /** n attempts try n different names. */
  lemma {:induction false} TriedSize(base: string, n: nat)
    ensures |Tried(base, n)| == n
    decreases n
  {
    if n > 0 {
      TriedSize(base, n - 1);
      TriedHasAllBefore(base, n - 1);
      if Candidate(base, n - 1) in Tried(base, n - 1) {
        var j :| 0 <= j < n - 1 && Candidate(base, n - 1) == Candidate(base, j);
        CandidateInjective(base, n - 1, j);
      }
    }
  }

  /**
   * If the first n+1 attempts all hit used names, at least n+1 names are
   * used: the search ends before it has tried more names than are used.
   */
  lemma AttemptsBounded(base: string, used: set<string>, n: nat)
    requires forall j :: 0 <= j <= n ==> Candidate(base, j) in used
    ensures n < |used|
  {
    TriedHasAllBefore(base, n + 1);
    TriedSize(base, n + 1);
    assert Tried(base, n + 1) <= used;
    SubsetSize(Tried(base, n + 1), used);
  }

  lemma {:induction false} SubsetSize(a: set<string>, b: set<string>)
    requires a <= b
    ensures |a| <= |b|
    decreases |a|
  {
    if a != {} {
      var x :| x in a;
      SubsetSize(a - {x}, b - {x});
    }
  }

  /** StringSet: the file names given out so far in one export. */
  class NameRegistry {
    var usedNames: set<string>

    constructor ()
      ensures usedNames == {}
    {
      usedNames := {};
    }

    /**
     * uniqueSafeFileName: the sanitised name with its suffix if that is
     * still free, otherwise the first of base-1, base-2, … that is; the
     * name is recorded as used.
     */
    method UniqueSafeFileName(unsafeName: string, suffix: string := "") returns (safeName: string)
      modifies this
      ensures exists k: nat :: (safeName == Candidate(Sanitized(unsafeName) + suffix, k) &&
                                forall j :: 0 <= j < k ==> Candidate(Sanitized(unsafeName) + suffix, j) in old(usedNames))
      ensures safeName !in old(usedNames) && usedNames == old(usedNames) + {safeName}
      ensures |usedNames| == |old(usedNames)| + 1
    {
      var baseSafeName := SafeFileName(unsafeName, suffix);
      safeName := baseSafeName;
      var ndx := 0;
      while safeName in usedNames
        invariant usedNames == old(usedNames)
        invariant safeName == Candidate(baseSafeName, ndx)
        invariant forall j :: 0 <= j < ndx ==> Candidate(baseSafeName, j) in usedNames
        decreases |usedNames| - ndx
      {
        AttemptsBounded(baseSafeName, usedNames, ndx);
        ndx := ndx + 1;
        safeName := baseSafeName + "-" + NatToString(ndx);
      }
      assert safeName == Candidate(baseSafeName, ndx);
      usedNames := usedNames + {safeName};
    }
  }
}
