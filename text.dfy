/**
 * String matching shared by the user-agent tests, the device-name lookups and the
 * label derivations: ASCII lower-casing, occurrence at a position, substring search.
 *
 * Every pattern the site matches case-insensitively is plain ASCII, and JavaScript's
 * `/i` flag (without `u`) never folds a non-ASCII character onto an ASCII one, so
 * folding the ASCII letters alone gives exactly the regex engine's answer.
 */
module Text {

  /** The character with `A`..`Z` mapped to `a`..`z`; every other character unchanged. */
  function LowerChar(c: char): char {
    if 'A' <= c <= 'Z' then (c as int + 32) as char else c
  }

  /** `s` with every ASCII capital replaced by its small letter (`String.prototype.toLowerCase` on ASCII). */
  function Lower(s: string): string {
    seq(|s|, i requires 0 <= i < |s| => LowerChar(s[i]))
  }

  /** `t` occurs in `s` starting at index `k`. */
  predicate StartsAt(s: string, k: int, t: string) {
    0 <= k && k + |t| <= |s| && s[k..k + |t|] == t
  }

  /** `t` occurs in `s` at index `k`, ignoring the case of ASCII letters. */
  predicate StartsAtCI(s: string, k: int, t: string) {
    StartsAt(Lower(s), k, Lower(t))
  }

  /** Scan `s` from index `k` on for an occurrence of `t`. */
  function ContainsFrom(s: string, t: string, k: nat): (b: bool)
    requires k <= |s|
    ensures b <==> exists j :: k <= j <= |s| && StartsAt(s, j, t)
    decreases |s| - k
  {
    if StartsAt(s, k, t) then true
    else if k + |t| >= |s| then false
    else ContainsFrom(s, t, k + 1)
  }

  /** `String.prototype.includes`: `t` occurs somewhere in `s` (case-sensitive). */
  function Contains(s: string, t: string): bool {
    ContainsFrom(s, t, 0)
  }

  /** A regex of one literal token with the `/i` flag, tested against `s`. */
  function ContainsCI(s: string, t: string): bool {
    Contains(Lower(s), Lower(t))
  }

  /** `tokens.some(tok => /tok/i.test(s))`, and equally the alternation `/t1|t2|.../i`. */
  function AnyContainsCI(s: string, tokens: seq<string>): bool {
    if tokens == [] then false
    else ContainsCI(s, tokens[0]) || AnyContainsCI(s, tokens[1..])
  }

  /** `Contains` is the substring relation. */
  lemma ContainsIff(s: string, t: string)
    ensures Contains(s, t) <==> exists j :: 0 <= j <= |s| && StartsAt(s, j, t)
  {
  }

  /** The case-insensitive test holds exactly when some position carries the token up to case. */
  lemma ContainsCIIff(s: string, t: string)
    ensures ContainsCI(s, t) <==> exists j :: 0 <= j <= |s| && StartsAtCI(s, j, t)
  {
    ContainsIff(Lower(s), Lower(t));
    assert |Lower(s)| == |s|;
    if ContainsCI(s, t) {
      var j :| 0 <= j <= |Lower(s)| && StartsAt(Lower(s), j, Lower(t));
      assert StartsAtCI(s, j, t);
    }
  }

  /** `some` over the token list holds exactly when one of the tokens occurs, up to case. */
  lemma {:induction false} AnyContainsCIIff(s: string, tokens: seq<string>)
    ensures AnyContainsCI(s, tokens) <==> exists i :: 0 <= i < |tokens| && ContainsCI(s, tokens[i])
  {
    if tokens != [] {
      AnyContainsCIIff(s, tokens[1..]);
      if AnyContainsCI(s, tokens[1..]) {
        var i :| 0 <= i < |tokens[1..]| && ContainsCI(s, tokens[1..][i]);
        assert ContainsCI(s, tokens[i + 1]);
      }
      if exists i :: 0 <= i < |tokens| && ContainsCI(s, tokens[i]) {
        var i :| 0 <= i < |tokens| && ContainsCI(s, tokens[i]);
        if i > 0 {
          assert ContainsCI(s, tokens[1..][i - 1]);
        }
      }
    }
  }

  /** An occurrence of `t` at `j` in `s` witnesses `Contains`. */
  lemma ContainsWitness(s: string, t: string, j: int)
    requires StartsAt(s, j, t)
    ensures Contains(s, t)
  {
    ContainsIff(s, t);
  }

  /** An occurrence of `u` inside an occurrence of `t` is an occurrence of `u` in `s`. */
  lemma StartsAtCIShift(s: string, k: int, t: string, d: int, u: string)
    requires StartsAtCI(s, k, t) && StartsAtCI(t, d, u)
    ensures StartsAtCI(s, k + d, u)
  {
    var ls, lt, lu := Lower(s), Lower(t), Lower(u);
    assert ls[k..k + |t|] == lt;
    forall i | 0 <= i < |u|
      ensures ls[k + d + i] == lu[i]
    {
      assert lt[d + i] == ls[k..k + |t|][d + i];
    }
    assert ls[k + d..k + d + |u|] == lu;
  }

  /** A token with a character that `s` lacks does not occur in `s`. */
  lemma MissingCharNotContained(s: string, t: string, i: int)
    requires 0 <= i < |t| && t[i] !in s
    ensures !Contains(s, t)
  {
    ContainsIff(s, t);
    forall j | 0 <= j <= |s| ensures !StartsAt(s, j, t) {
      if j + |t| <= |s| {
        assert s[j..j + |t|][i] == s[j + i];
        assert s[j + i] in s;
      }
    }
  }
}
