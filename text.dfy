/**
 * JavaScript's `String.prototype.replace` with a string pattern: only the
 * FIRST occurrence of the pattern is replaced, wherever in the string it is.
 * The registration client uses it to turn the relay's WebSocket URL into the
 * HTTP base URL of the registration endpoint.
 */
module Text {
  import opened Wrappers

  /** `pat` occurs in `s` starting at index `i`. */
  predicate OccursAt(s: string, pat: string, i: nat) {
    i + |pat| <= |s| && s[i..i + |pat|] == pat
  }

  /** `i` is the index of the first occurrence of `pat` in `s`. */
  predicate FirstOccurrence(s: string, pat: string, i: nat) {
    OccursAt(s, pat, i) && forall j: nat :: j < i ==> !OccursAt(s, pat, j)
  }

  /**
   * `String.prototype.indexOf(pat, from)` for `from <= |s|`, with `None` for
   * -1. (JavaScript clamps a larger `from` to `|s|`; this search does not.)
   */
  function IndexOf(s: string, pat: string, from: nat): (r: Option<nat>)
    ensures r.Some? ==> from <= r.value && OccursAt(s, pat, r.value)
    ensures r.Some? ==> forall j: nat :: from <= j < r.value ==> !OccursAt(s, pat, j)
    ensures r.None? ==> forall j: nat :: from <= j ==> !OccursAt(s, pat, j)
    decreases |s| - from
  {
    if |s| < from + |pat| then None
    else if OccursAt(s, pat, from) then Some(from)
    else IndexOf(s, pat, from + 1)
  }

  /** `s.replace(pat, rep)` for a string `pat` and a replacement `rep` that contains no `$`. */
  function ReplaceFirst(s: string, pat: string, rep: string): (r: string)
    ensures forall i: nat :: FirstOccurrence(s, pat, i) ==> r == s[..i] + rep + s[i + |pat|..]
    ensures (forall j: nat :: !OccursAt(s, pat, j)) ==> r == s
  {
    match IndexOf(s, pat, 0)
    case None => s
    case Some(i) => s[..i] + rep + s[i + |pat|..]
  }

  /** The scheme rewrite of main.js:123: first "wss://" to "https://", then first "ws://" to "http://". */
  function HttpBase(serverUrl: string): string {
    ReplaceFirst(ReplaceFirst(serverUrl, "wss://", "https://"), "ws://", "http://")
  }

  /** A prefix without the letter 'w' holds no occurrence of a pattern beginning with 'w'. */
  lemma NoOccurrenceAcrossPrefix(prefix: string, rest: string, pat: string)
    requires |pat| > 0 && pat[0] == 'w'
    requires forall k :: 0 <= k < |prefix| ==> prefix[k] != 'w'
    requires forall j: nat :: !OccursAt(rest, pat, j)
    ensures forall j: nat :: !OccursAt(prefix + rest, pat, j)
  {
    var s := prefix + rest;
    forall j: nat ensures !OccursAt(s, pat, j) {
      if j + |pat| <= |s| {
        if j < |prefix| {
          assert s[j..j + |pat|][0] == prefix[j] != pat[0];
        } else {
          assert s[j..j + |pat|] == rest[j - |prefix|..j - |prefix| + |pat|];
          assert !OccursAt(rest, pat, j - |prefix|);
        }
      }
    }
  }

  /** After a 'w'-free prefix, the first occurrence of `pat` is the one right after the prefix. */
  lemma ReplaceAfterPrefix(prefix: string, pat: string, rest: string, rep: string)
    requires |pat| > 0 && pat[0] == 'w'
    requires forall k :: 0 <= k < |prefix| ==> prefix[k] != 'w'
    ensures ReplaceFirst(prefix + pat + rest, pat, rep) == prefix + rep + rest
  {
    var s := prefix + pat + rest;
    var i := |prefix|;
    assert s[i..i + |pat|] == pat;
    forall j: nat | j < i ensures !OccursAt(s, pat, j) {
      if j + |pat| <= |s| {
        assert s[j..j + |pat|][0] == prefix[j] != pat[0];
      }
    }
    assert FirstOccurrence(s, pat, i);
    assert s[..i] == prefix && s[i + |pat|..] == rest;
  }

  /** A secure relay URL becomes an https URL with the rest untouched. */
  lemma HttpBaseOfSecureUrl(rest: string)
    requires forall j: nat :: !OccursAt(rest, "ws://", j)
    ensures HttpBase("wss://" + rest) == "https://" + rest
  {
    ReplaceAfterPrefix("", "wss://", rest, "https://");
    assert "" + "wss://" + rest == "wss://" + rest;
    assert "" + "https://" + rest == "https://" + rest;
    NoOccurrenceAcrossPrefix("https://", rest, "ws://");
  }

  /** A plain relay URL becomes an http URL with the rest untouched. */
  lemma HttpBaseOfPlainUrl(rest: string)
    requires forall j: nat :: !OccursAt(rest, "wss://", j)
    ensures HttpBase("ws://" + rest) == "http://" + rest
  {
    var s := "ws://" + rest;
    forall j: nat ensures !OccursAt(s, "wss://", j) {
      if j + 6 <= |s| {
        if j == 0 {
          assert s[j..j + 6][2] == ':';
        } else if j < 5 {
          assert s[j..j + 6][0] == s[j] != 'w';
        } else {
          assert s[j..j + 6] == rest[j - 5..j + 1];
          assert !OccursAt(rest, "wss://", j - 5);
        }
      }
    }
    assert ReplaceFirst(s, "wss://", "https://") == s;
    ReplaceAfterPrefix("", "ws://", rest, "http://");
    assert "" + "ws://" + rest == s;
    assert "" + "http://" + rest == "http://" + rest;
  }

  /**
   * The rewrite is not anchored at the start: a second scheme embedded in a
   * secure URL, after a host with no 'w' in it, is rewritten too.
   */
  lemma HttpBaseRewritesEmbeddedScheme(host: string, rest: string)
    requires forall k :: 0 <= k < |host| ==> host[k] != 'w'
    ensures HttpBase("wss://" + host + "ws://" + rest) == "https://" + host + "http://" + rest
  {
    var secured := "https://" + host;
    SecureSchemeFirst(host + "ws://" + rest);
    assert "wss://" + (host + "ws://" + rest) == "wss://" + host + "ws://" + rest;
    assert "https://" + (host + "ws://" + rest) == secured + "ws://" + rest;
    forall k | 0 <= k < |secured| ensures secured[k] != 'w' {
      if k >= 8 {
        assert secured[k] == host[k - 8];
      }
    }
    ReplaceAfterPrefix(secured, "ws://", rest, "http://");
  }

  /** The secure scheme at the start is always the first occurrence of "wss://". */
  lemma SecureSchemeFirst(tail: string)
    ensures ReplaceFirst("wss://" + tail, "wss://", "https://") == "https://" + tail
  {
    ReplaceAfterPrefix("", "wss://", tail, "https://");
    assert "" + "wss://" + tail == "wss://" + tail;
    assert "" + "https://" + tail == "https://" + tail;
  }
}
