/**
 * The e-mail pattern `^[^\s@]+@[^\s@]+\.[^\s@]+$` shared by both registration
 * scripts, written without a regular-expression engine.
 *
 * `MatchesEmailPattern` is the language of the pattern, read off its shape: three
 * non-empty runs of characters that are neither whitespace nor '@', joined by an
 * '@' and then a '.'. `IsEmailAddress` is the decision procedure the scripts need;
 * `IsEmailAddressIff` proves the two agree on every string.
 */
module Email {
  import opened Wrappers
  import opened Text

  /** `[^\s@]*`: no whitespace and no '@'. */
  predicate NoSpaceOrAt(s: string) {
    forall i :: 0 <= i < |s| ==> !IsSpace(s[i]) && s[i] != '@'
  }

  /** The strings the pattern accepts: `a@b.c` with `a`, `b`, `c` non-empty runs of `[^\s@]`. */
  ghost predicate MatchesEmailPattern(s: string) {
    exists i, j :: 0 < i < j - 1 < |s| - 2 && s[i] == '@' && s[j] == '.' &&
                   NoSpaceOrAt(s[..i]) && NoSpaceOrAt(s[i + 1..j]) && NoSpaceOrAt(s[j + 1..])
  }

  /** The index of the first occurrence of `c` in `s`. */
  function IndexOf(s: string, c: char): Option<nat> {
    if s == [] then None
    else if s[0] == c then Some(0)
    else match IndexOf(s[1..], c)
      case None => None
      case Some(k) => Some(k + 1)
  }

  /** `IndexOf` finds `c` exactly when it occurs, and then at its first occurrence. */
  lemma {:induction false} IndexOfSpec(s: string, c: char)
    ensures IndexOf(s, c).None? <==> c !in s
    ensures IndexOf(s, c).Some? ==>
      var k := IndexOf(s, c).value; k < |s| && s[k] == c && c !in s[..k]
  {
    if s != [] && s[0] != c {
      IndexOfSpec(s[1..], c);
      assert s == [s[0]] + s[1..];
      if IndexOf(s, c).Some? {
        var k := IndexOf(s[1..], c).value;
        assert s[..k + 1] == [s[0]] + s[1..][..k];
      }
    }
  }

  /**
   * The pattern as a test: the first '@' is not at the start, nothing is whitespace
   * or a second '@', and the part after the '@' has a '.' with a character on each side.
   */
  function IsEmailAddress(s: string): bool {
    match IndexOf(s, '@')
    case None => false
    case Some(i) =>
      IndexOfSpec(s, '@');
      var domain := s[i + 1..];
      0 < i && NoSpaceOrAt(s[..i]) && NoSpaceOrAt(domain) &&
      |domain| >= 3 && '.' in domain[1..|domain| - 1]
  }

  /** The test accepts exactly the language of the pattern. */
  lemma IsEmailAddressIff(s: string)
    ensures IsEmailAddress(s) <==> MatchesEmailPattern(s)
  {
    if IsEmailAddress(s) {
      AcceptedMatches(s);
    }
    if MatchesEmailPattern(s) {
      var i, j :| 0 < i < j - 1 < |s| - 2 && s[i] == '@' && s[j] == '.' &&
                  NoSpaceOrAt(s[..i]) && NoSpaceOrAt(s[i + 1..j]) && NoSpaceOrAt(s[j + 1..]);
      MatchAccepted(s, i, j);
    }
  }

  lemma AcceptedMatches(s: string)
    requires IsEmailAddress(s)
    ensures MatchesEmailPattern(s)
  {
    IndexOfSpec(s, '@');
    var i := IndexOf(s, '@').value;
    var d := s[i + 1..];
    var k :| 1 <= k < |d| - 1 && d[k] == '.';
    var j := i + 1 + k;
    Slice(d, 0, k);
    Slice(d, k + 1, |d|);
    assert s[i + 1..j] == d[..k];
    assert s[j + 1..] == d[k + 1..];
  }

  lemma MatchAccepted(s: string, i: nat, j: nat)
    requires 0 < i < j - 1 < |s| - 2 && s[i] == '@' && s[j] == '.'
    requires NoSpaceOrAt(s[..i]) && NoSpaceOrAt(s[i + 1..j]) && NoSpaceOrAt(s[j + 1..])
    ensures IsEmailAddress(s)
  {
    assert '@' !in s[..i] by {
      forall x | 0 <= x < i ensures s[..i][x] != '@' { }
    }
    IndexOfSpec(s, '@');
    assert IndexOf(s, '@') == Some(i);
    var d := s[i + 1..];
    assert d == s[i + 1..j] + [s[j]] + s[j + 1..];
    Concat(s[i + 1..j] + [s[j]], s[j + 1..]);
    assert d[1..|d| - 1][j - i - 2] == '.';
  }

  /** A run of `[^\s@]` stays one when cut. */
  lemma Slice(s: string, a: nat, b: nat)
    requires a <= b <= |s| && NoSpaceOrAt(s)
    ensures NoSpaceOrAt(s[a..b])
  {
    forall x | 0 <= x < b - a ensures !IsSpace(s[a..b][x]) && s[a..b][x] != '@' {
      assert s[a..b][x] == s[a + x];
    }
  }

  /** Two runs of `[^\s@]` joined are one. */
  lemma Concat(x: string, y: string)
    requires NoSpaceOrAt(x) && NoSpaceOrAt(y)
    ensures NoSpaceOrAt(x + y)
  {
    forall k | 0 <= k < |x + y| ensures !IsSpace((x + y)[k]) && (x + y)[k] != '@' {
      if k < |x| { assert (x + y)[k] == x[k]; } else { assert (x + y)[k] == y[k - |x|]; }
    }
  }

  /** An accepted address holds exactly one '@'. */
  lemma EmailHasOneAt(s: string)
    requires IsEmailAddress(s)
    ensures multiset(s)['@'] == 1
  {
    IndexOfSpec(s, '@');
    var i := IndexOf(s, '@').value;
    assert s == s[..i] + [s[i]] + s[i + 1..];
    NoAtCount(s[..i]);
    NoAtCount(s[i + 1..]);
  }

  lemma {:induction false} NoAtCount(s: string)
    requires NoSpaceOrAt(s)
    ensures multiset(s)['@'] == 0
  {
    if s != [] {
      assert s == [s[0]] + s[1..];
      NoAtCount(s[1..]);
    }
  }
}
