/**
 * The nickname sanitiser `cleanNickname` (server.js:30-34): falsy input becomes
 * the empty string, every character outside [A-Za-z0-9 ] is deleted, and the
 * rest is cut to its first 20 characters.
 */
module Nickname {
  import opened Wrappers

  /** The length `substring(0, 20)` keeps. */
  const MaxLength: nat := 20

  /** The characters the pattern `[^a-zA-Z0-9 ]` does not delete. */
  predicate Allowed(c: char) {
    ('a' <= c <= 'z') || ('A' <= c <= 'Z') || ('0' <= c <= '9') || c == ' '
  }

  predicate AllAllowed(s: string) {
    forall i :: 0 <= i < |s| ==> Allowed(s[i])
  }

  /** What a sanitised nickname looks like: short and of the allowed characters only. */
  predicate IsClean(s: string) {
    |s| <= MaxLength && AllAllowed(s)
  }

  /** `replace(/[^a-zA-Z0-9 ]/g, '')`: delete every character that is not allowed. */
  function StripDisallowed(s: string): (r: string)
    ensures |r| <= |s|
    ensures AllAllowed(r)
  {
    if s == [] then []
    else (if Allowed(s[0]) then [s[0]] else []) + StripDisallowed(s[1..])
  }

  /** `substring(0, n)`: the first `n` characters, or all of them when there are fewer. */
  function Truncate(s: string, n: nat): (r: string)
    ensures |r| == if |s| <= n then |s| else n
    ensures r <= s
  {
    if |s| <= n then s else s[..n]
  }

  /**
   * `cleanNickname(nick)`. `None` stands for every falsy argument (absent,
   * `null`, `undefined`); the empty string is falsy too and gives "" either way.
   */
  function CleanNickname(nick: Option<string>): (r: string)
    ensures IsClean(r)
    ensures nick.None? ==> r == ""
  {
    match nick
    case None => ""
    case Some(s) => Truncate(StripDisallowed(s), MaxLength)
  }

  /** Deletion works character by character: stripping a concatenation strips each part. */
  lemma {:induction false} StripAppend(a: string, b: string)
    ensures StripDisallowed(a + b) == StripDisallowed(a) + StripDisallowed(b)
  {
    if a != [] {
      assert (a + b)[1..] == a[1..] + b;
      StripAppend(a[1..], b);
    } else {
      assert a + b == b;
    }
  }

  /** A single character survives exactly when it is allowed. */
  lemma StripSingle(c: char)
    ensures StripDisallowed([c]) == if Allowed(c) then [c] else []
  {
    assert [c][1..] == [];
  }

  /** Stripping leaves a string unchanged exactly when it has nothing to delete. */
  lemma {:induction false} StripIdentity(s: string)
    ensures StripDisallowed(s) == s <==> AllAllowed(s)
  {
    if s != [] && AllAllowed(s) {
      assert AllAllowed(s[1..]) by {
        forall i | 0 <= i < |s[1..]| ensures Allowed(s[1..][i]) {
          assert s[1..][i] == s[i + 1];
        }
      }
      StripIdentity(s[1..]);
      assert s == [s[0]] + s[1..];
    }
  }

  /** Every allowed character keeps its number of occurrences; every other one vanishes. */
  lemma {:induction false} StripCounts(s: string, c: char)
    ensures multiset(StripDisallowed(s))[c] == if Allowed(c) then multiset(s)[c] else 0
  {
    if s != [] {
      StripCounts(s[1..], c);
      assert s == [s[0]] + s[1..];
      assert multiset(s) == multiset([s[0]]) + multiset(s[1..]);
    }
  }

  /** The result is the stripped input cut to its first 20 characters. */
  lemma CleanIsStrippedPrefix(s: string)
    ensures CleanNickname(Some(s)) <= StripDisallowed(s)
    ensures |CleanNickname(Some(s))| == if |StripDisallowed(s)| <= MaxLength then |StripDisallowed(s)| else MaxLength
  {
  }

  /** A string is returned unchanged exactly when it is already clean. */
  lemma CleanFixesExactlyClean(s: string)
    ensures CleanNickname(Some(s)) == s <==> IsClean(s)
  {
    StripIdentity(s);
    if CleanNickname(Some(s)) == s {
      assert IsClean(s);
    }
  }

  /** Sanitising twice is sanitising once. */
  lemma CleanIdempotent(nick: Option<string>)
    ensures CleanNickname(Some(CleanNickname(nick))) == CleanNickname(nick)
  {
    CleanFixesExactlyClean(CleanNickname(nick));
  }
}
