/**
 * The link grammar that main.py compiles as INSTAGRAM_REEL_PATTERN:
 *
 *   https?://(?:www\.)?instagram\.com/(?:[a-zA-Z0-9._-]+/)?reel/([a-zA-Z0-9_-]+)(?:/\?[^ ]*)?/?
 *
 * A derivation of the pattern is a `Parse`: the choices taken for the optional
 * parts and the lengths of the repeated parts.  `Derives(t, p, d)` says that
 * the text `t` spells `d` from position `p` on; its length is `Length(d)` and
 * its captured shortcode starts at `CodeStart(p, d)`.
 *
 * `MatchAt` is a hand-written matcher that takes, at a given start position,
 * the choices Python's backtracking engine takes: each optional group tried
 * first, each repetition as long as possible, and a backtrack out of the user
 * segment when the rest fails after it.  `MatchAtLongest` proves that this
 * is the longest derivation starting there, and that any other derivation of
 * the same length captures the same shortcode.
 */
module ReelPattern {
  import opened Wrappers

  // ---------------------------------------------------------------------
  // Character classes and literal words
  // ---------------------------------------------------------------------

  /** The three character classes of the pattern. */
  datatype CharClass =
    | SegmentChars    // [a-zA-Z0-9._-], the optional user segment
    | ShortcodeChars  // [a-zA-Z0-9_-], the captured shortcode
    | QueryChars      // [^ ], anything but a space, the query

  predicate IsAsciiAlnum(c: char) {
    ('a' <= c <= 'z') || ('A' <= c <= 'Z') || ('0' <= c <= '9')
  }

  predicate InClass(k: CharClass, c: char) {
    match k
    case SegmentChars => IsAsciiAlnum(c) || c == '.' || c == '_' || c == '-'
    case ShortcodeChars => IsAsciiAlnum(c) || c == '_' || c == '-'
    case QueryChars => c != ' '
  }

  /** Every character of `t` from `a` up to `b` belongs to class `k`. */
  predicate Chars(k: CharClass, t: string, a: nat, b: nat)
    decreases b - a
  {
    a <= b <= |t| && (a < b ==> InClass(k, t[a]) && Chars(k, t, a + 1, b))
  }

  /** The word `w` occurs in `t` at position `p`. */
  predicate Lit(t: string, p: nat, w: string) {
    p + |w| <= |t| && LitFrom(t, p, w, 0)
  }

  /** The characters of `w` from index `i` on occur in `t` from position `p + i` on. */
  predicate LitFrom(t: string, p: nat, w: string, i: nat)
    decreases |t| - (p + i)
  {
    i >= |w| || (p + i < |t| && t[p + i] == w[i] && LitFrom(t, p, w, i + 1))
  }

  // ---------------------------------------------------------------------
  // Derivations of the pattern
  // ---------------------------------------------------------------------

  /** `reel/`, a shortcode of `code` characters, the optional `/?<query>` and the optional `/`. */
  datatype PathParse = PathParse(code: nat, query: Option<nat>, slash: bool)

  /**
   * One derivation of the pattern: `https` or `http`, `www.` or not, a user
   * segment of `segment` characters (0 when the optional group is skipped)
   * and the reel path.
   */
  datatype Parse = Parse(secure: bool, www: bool, segment: nat, path: PathParse)

  function SchemeLength(secure: bool): nat { if secure then 8 else 7 }
  function WwwLength(www: bool): nat { if www then 4 else 0 }

  /** Length of `https?://(?:www\.)?instagram\.com/` with the two choices made. */
  function HeadLength(secure: bool, www: bool): nat {
    SchemeLength(secure) + WwwLength(www) + 14
  }

  function TailLength(query: Option<nat>, slash: bool): nat {
    (if query.Some? then 2 + query.value else 0) + (if slash then 1 else 0)
  }

  function PathLength(r: PathParse): nat {
    5 + r.code + TailLength(r.query, r.slash)
  }

  function RestLength(segment: nat, r: PathParse): nat {
    (if segment > 0 then segment + 1 else 0) + PathLength(r)
  }

  /** Where the shortcode starts after the segment choice, counted from the rest's start. */
  function RestCodeOffset(segment: nat): nat {
    (if segment > 0 then segment + 1 else 0) + 5
  }

  /** The number of characters a derivation spells. */
  function Length(d: Parse): nat {
    HeadLength(d.secure, d.www) + RestLength(d.segment, d.path)
  }

  /** Where the captured shortcode of `d` starts when `d` is spelled from `p` on. */
  function CodeStart(p: nat, d: Parse): nat {
    p + HeadLength(d.secure, d.www) + RestCodeOffset(d.segment)
  }

  /** `(?:/\?[^ ]*)?/?` spelled at `c`. */
  predicate TailAt(t: string, c: nat, query: Option<nat>, slash: bool) {
    var e := if query.Some? then c + 2 + query.value else c;
    && (query.Some? ==> Lit(t, c, "/?") && Chars(QueryChars, t, c + 2, e))
    && (slash ==> Lit(t, e, "/"))
  }

  /** `reel/([a-zA-Z0-9_-]+)(?:/\?[^ ]*)?/?` spelled at `s`. */
  predicate PathAt(t: string, s: nat, r: PathParse) {
    && Lit(t, s, "reel/")
    && r.code > 0
    && Chars(ShortcodeChars, t, s + 5, s + 5 + r.code)
    && TailAt(t, s + 5 + r.code, r.query, r.slash)
  }

  /** `(?:[a-zA-Z0-9._-]+/)?` and the reel path spelled at `q`. */
  predicate RestAt(t: string, q: nat, segment: nat, r: PathParse) {
    if segment > 0 then
      Chars(SegmentChars, t, q, q + segment) && Lit(t, q + segment, "/") && PathAt(t, q + segment + 1, r)
    else
      PathAt(t, q, r)
  }

  /** `https?://(?:www\.)?instagram\.com/` spelled at `p`, with `s` and `www.` as chosen. */
  predicate HeadAt(t: string, p: nat, secure: bool, www: bool) {
    && Lit(t, p, "http")
    && Lit(t, p + 4, if secure then "s://" else "://")
    && (www ==> Lit(t, p + SchemeLength(secure), "www."))
    && Lit(t, p + SchemeLength(secure) + WwwLength(www), "instagram.com/")
  }

  /** The text `t` spells the derivation `d` from position `p` on. */
  predicate Derives(t: string, p: nat, d: Parse) {
    HeadAt(t, p, d.secure, d.www) && RestAt(t, p + HeadLength(d.secure, d.www), d.segment, d.path)
  }

  /** A non-empty word of `[a-zA-Z0-9_-]`, the shape of a shortcode. */
  predicate IsShortcode(w: string) {
    |w| > 0 && Chars(ShortcodeChars, w, 0, |w|)
  }

  /** Some derivation of the pattern starts in `t` at position `p`. */
  ghost predicate LinkAt(t: string, p: nat) {
    exists d :: Derives(t, p, d)
  }

  // ---------------------------------------------------------------------
  // The matcher
  // ---------------------------------------------------------------------

  /** Length of the longest run of characters of class `k` starting at `p`. */
  function Run(k: CharClass, t: string, p: nat): (n: nat)
    requires p <= |t|
    ensures p + n <= |t|
    ensures p + n == |t| || !InClass(k, t[p + n])
    decreases |t| - p
  {
    if p < |t| && InClass(k, t[p]) then 1 + Run(k, t, p + 1) else 0
  }

  /** `https?://(?:www\.)?instagram\.com/` at `p`: the scheme and `www.` choices. */
  function MatchHead(t: string, p: nat): (r: Option<(bool, bool)>)
    ensures r.Some? ==> p + HeadLength(r.value.0, r.value.1) <= |t|
  {
    var secure := Lit(t, p + 4, "s://");
    if !Lit(t, p, "http") || (!secure && !Lit(t, p + 4, "://")) then None
    else
      var www := Lit(t, p + SchemeLength(secure), "www.");
      if Lit(t, p + SchemeLength(secure) + WwwLength(www), "instagram.com/") then Some((secure, www))
      else None
  }

  /** `(?:/\?[^ ]*)?/?` at `c`: the query is tried first and takes every non-space character. */
  function MatchTail(t: string, c: nat): (r: (Option<nat>, bool))
    requires c <= |t|
    ensures c + TailLength(r.0, r.1) <= |t|
  {
    if Lit(t, c, "/?") then (Some(Run(QueryChars, t, c + 2)), false)
    else (None, Lit(t, c, "/"))
  }

  /** `reel/([a-zA-Z0-9_-]+)` and the tail at `s`, the shortcode taken greedily. */
  function MatchPath(t: string, s: nat): (r: Option<PathParse>)
    requires s <= |t|
    ensures r.Some? ==> s + PathLength(r.value) <= |t|
  {
    if !Lit(t, s, "reel/") then None
    else
      var n := Run(ShortcodeChars, t, s + 5);
      if n == 0 then None
      else
        var (query, slash) := MatchTail(t, s + 5 + n);
        Some(PathParse(n, query, slash))
  }

  /**
   * `(?:[a-zA-Z0-9._-]+/)?` followed by the reel path at `q`: the segment is tried
   * first (with its longest run, the only one a `/` can follow); when the rest
   * fails after it, the engine backtracks to the path without a segment.
   */
  function MatchRest(t: string, q: nat): (r: Option<(nat, PathParse)>)
    requires q <= |t|
    ensures r.Some? ==> q + RestLength(r.value.0, r.value.1) <= |t|
  {
    var n := Run(SegmentChars, t, q);
    var afterSegment := if n > 0 && Lit(t, q + n, "/") then MatchPath(t, q + n + 1) else None;
    match afterSegment
    case Some(r) => Some((n, r))
    case None =>
      match MatchPath(t, q)
      case Some(r) => Some((0, r))
      case None => None
  }

  /** The match Python's `re` finds for the pattern when it starts at position `p`. */
  function MatchAt(t: string, p: nat): (m: Option<Parse>)
    requires p <= |t|
    ensures m.Some? ==> p + Length(m.value) <= |t|
  {
    match MatchHead(t, p)
    case None => None
    case Some((secure, www)) =>
      match MatchRest(t, p + HeadLength(secure, www))
      case None => None
      case Some((segment, path)) => Some(Parse(secure, www, segment, path))
  }

  // ---------------------------------------------------------------------
  // Literal words and runs
  // ---------------------------------------------------------------------

  lemma {:induction false} LitFromAt(t: string, p: nat, w: string, i: nat, k: nat)
    requires LitFrom(t, p, w, i) && i <= k < |w|
    ensures p + k < |t| && t[p + k] == w[k]
    decreases k - i
  {
    if i < k {
      LitFromAt(t, p, w, i + 1, k);
    }
  }

  /** The character of a word occurring at `p` at one of its indices. */
  lemma LitAt(t: string, p: nat, w: string, k: nat)
    requires Lit(t, p, w) && k < |w|
    ensures t[p + k] == w[k]
  {
    LitFromAt(t, p, w, 0, k);
  }


  lemma {:induction false} CharsAt(k: CharClass, t: string, a: nat, b: nat, i: nat)
    requires Chars(k, t, a, b) && a <= i < b
    ensures InClass(k, t[i])
    decreases i - a
  {
    if a < i {
      CharsAt(k, t, a + 1, b, i);
    }
  }

  /** A stretch of class `k` extended by one more character of the class. */
  lemma {:induction false} CharsSnoc(k: CharClass, t: string, a: nat, b: nat)
    requires Chars(k, t, a, b) && b < |t| && InClass(k, t[b])
    ensures Chars(k, t, a, b + 1)
    decreases b - a
  {
    if a < b {
      CharsSnoc(k, t, a + 1, b);
    }
  }

  lemma {:induction false} CharsOf(k: CharClass, t: string, a: nat, b: nat)
    requires a <= b <= |t| && forall i :: a <= i < b ==> InClass(k, t[i])
    ensures Chars(k, t, a, b)
    decreases b - a
  {
    if a < b {
      CharsOf(k, t, a + 1, b);
    }
  }

  /** Every character of a run belongs to its class. */
  lemma {:induction false} RunChars(k: CharClass, t: string, p: nat)
    requires p <= |t|
    ensures Chars(k, t, p, p + Run(k, t, p))
    decreases |t| - p
  {
    if p < |t| && InClass(k, t[p]) {
      RunChars(k, t, p + 1);
    }
  }

  /** A run starting at `p` covers every stretch of its class starting at `p`. */
  lemma {:induction false} RunCovers(k: CharClass, t: string, p: nat, b: nat)
    requires p <= |t| && Chars(k, t, p, b)
    ensures b <= p + Run(k, t, p)
    decreases b - p
  {
    if p < b {
      RunCovers(k, t, p + 1, b);
    }
  }

  /** A stretch of class `k` followed by a character outside it is exactly the run. */
  lemma RunStops(k: CharClass, t: string, p: nat, b: nat)
    requires p <= |t| && Chars(k, t, p, b) && b < |t| && !InClass(k, t[b])
    ensures Run(k, t, p) == b - p
  {
    RunCovers(k, t, p, b);
    if Run(k, t, p) > b - p {
      RunChars(k, t, p);
      CharsAt(k, t, p, p + Run(k, t, p), b);
    }
  }

  lemma {:induction false} LitFromOf(t: string, p: nat, w: string, i: nat)
    requires p + |w| <= |t| && i <= |w| && forall k :: i <= k < |w| ==> t[p + k] == w[k]
    ensures LitFrom(t, p, w, i)
    decreases |w| - i
  {
    if i < |w| {
      LitFromOf(t, p, w, i + 1);
    }
  }

  /** Every word occurs in itself at position 0. */
  lemma LitSelf(w: string)
    ensures Lit(w, 0, w)
  {
    LitFromOf(w, 0, w, 0);
  }

  /** A word occurring in `v` also occurs in `u + v`, shifted by `|u|`. */
  lemma LitShift(u: string, v: string, i: nat, w: string)
    requires Lit(v, i, w)
    ensures Lit(u + v, |u| + i, w)
  {
    forall k | 0 <= k < |w|
      ensures (u + v)[|u| + i + k] == w[k]
    {
      LitAt(v, i, w, k);
    }
    LitFromOf(u + v, |u| + i, w, 0);
  }

  /** A word occurring in `u` also occurs in `u + v`. */
  lemma LitExtend(u: string, v: string, i: nat, w: string)
    requires Lit(u, i, w)
    ensures Lit(u + v, i, w)
  {
    forall k | 0 <= k < |w|
      ensures (u + v)[i + k] == w[k]
    {
      LitAt(u, i, w, k);
    }
    LitFromOf(u + v, i, w, 0);
  }

  /** Two words that differ at some index cannot both occur at `p`. */
  lemma LitExcludes(t: string, p: nat, a: string, b: string, k: nat)
    requires Lit(t, p, a) && k < |a| && k < |b| && a[k] != b[k]
    ensures !Lit(t, p, b)
  {
    LitAt(t, p, a, k);
    if Lit(t, p, b) {
      LitAt(t, p, b, k);
    }
  }

  // ---------------------------------------------------------------------
  // Soundness: what the matcher returns is a derivation starting at p
  // ---------------------------------------------------------------------

  /** The head matcher recognises exactly the heads of the pattern. */
  lemma MatchHeadSpec(t: string, p: nat, secure: bool, www: bool)
    ensures MatchHead(t, p) == Some((secure, www)) <==> HeadAt(t, p, secure, www)
  {
    if HeadAt(t, p, secure, www) {
      // Without `s` the scheme goes on with `:`; without `www.` the head goes on with `i`.
      if !secure {
        LitExcludes(t, p + 4, "://", "s://", 0);
      }
      if !www {
        LitExcludes(t, p + SchemeLength(secure), "instagram.com/", "www.", 0);
      }
    }
  }

  lemma MatchTailSound(t: string, c: nat)
    requires c <= |t|
    ensures TailAt(t, c, MatchTail(t, c).0, MatchTail(t, c).1)
  {
    if Lit(t, c, "/?") {
      RunChars(QueryChars, t, c + 2);
    }
  }

  lemma MatchPathSound(t: string, s: nat)
    requires s <= |t| && MatchPath(t, s).Some?
    ensures PathAt(t, s, MatchPath(t, s).value)
  {
    RunChars(ShortcodeChars, t, s + 5);
    MatchTailSound(t, s + 5 + Run(ShortcodeChars, t, s + 5));
  }

  lemma MatchRestSound(t: string, q: nat)
    requires q <= |t| && MatchRest(t, q).Some?
    ensures RestAt(t, q, MatchRest(t, q).value.0, MatchRest(t, q).value.1)
  {
    var n := Run(SegmentChars, t, q);
    if n > 0 && Lit(t, q + n, "/") && MatchPath(t, q + n + 1).Some? {
      SegmentSound(t, q);
    } else {
      MatchPathSound(t, q);
    }
  }

  /** The segment alternative, when it succeeds, spells a segment, a `/` and a reel path. */
  lemma SegmentSound(t: string, q: nat)
    requires q <= |t| && Run(SegmentChars, t, q) > 0 && Lit(t, q + Run(SegmentChars, t, q), "/")
    requires MatchPath(t, q + Run(SegmentChars, t, q) + 1).Some?
    ensures RestAt(t, q, Run(SegmentChars, t, q), MatchPath(t, q + Run(SegmentChars, t, q) + 1).value)
  {
    RunChars(SegmentChars, t, q);
    MatchPathSound(t, q + Run(SegmentChars, t, q) + 1);
  }

  /** What the matcher returns is a derivation of the pattern starting at `p`. */
  lemma MatchAtSound(t: string, p: nat)
    requires p <= |t| && MatchAt(t, p).Some?
    ensures Derives(t, p, MatchAt(t, p).value)
  {
    match MatchHead(t, p)
    case Some((secure, www)) =>
      MatchHeadSpec(t, p, secure, www);
      MatchRestSound(t, p + HeadLength(secure, www));
  }

  /** A derivation fits in the text. */
  lemma DerivesFits(t: string, p: nat, d: Parse)
    requires Derives(t, p, d)
    ensures p + Length(d) <= |t|
    ensures CodeStart(p, d) + d.path.code <= |t|
  {
    var q := p + HeadLength(d.secure, d.www);
    if d.segment > 0 {
      PathFits(t, q + d.segment + 1, d.path);
    } else {
      PathFits(t, q, d.path);
    }
  }

  /** The captured shortcode of a derivation is a stretch of `[a-zA-Z0-9_-]`. */
  lemma DerivesCode(t: string, p: nat, d: Parse)
    requires Derives(t, p, d)
    ensures Chars(ShortcodeChars, t, CodeStart(p, d), CodeStart(p, d) + d.path.code)
  {
    var q := p + HeadLength(d.secure, d.www);
    if d.segment > 0 {
      assert PathAt(t, q + d.segment + 1, d.path);
    } else {
      assert PathAt(t, q, d.path);
    }
  }

  /** A derivation of the reel path fits in the text. */
  lemma PathFits(t: string, s: nat, r: PathParse)
    requires PathAt(t, s, r)
    ensures s + PathLength(r) <= |t|
  {
  }

  // ---------------------------------------------------------------------
  // Maximality: no derivation starting at p is longer than the match
  // ---------------------------------------------------------------------

  lemma MatchTailLongest(t: string, c: nat, query: Option<nat>, slash: bool)
    requires c <= |t| && TailAt(t, c, query, slash)
    ensures TailLength(query, slash) <= TailLength(MatchTail(t, c).0, MatchTail(t, c).1)
  {
    if query.Some? {
      var e := c + 2 + query.value;
      if slash {
        LitAt(t, e, "/", 0);
        CharsSnoc(QueryChars, t, c + 2, e);
        RunCovers(QueryChars, t, c + 2, e + 1);
      } else {
        RunCovers(QueryChars, t, c + 2, e);
      }
    }
  }

  /**
   * A derivation of the reel path at `s` is no longer than the match, and one
   * whose shortcode differs from the match's is strictly shorter.
   */
  lemma MatchPathLongest(t: string, s: nat, r: PathParse)
    requires s <= |t| && PathAt(t, s, r)
    ensures MatchPath(t, s).Some?
    ensures PathLength(r) <= PathLength(MatchPath(t, s).value)
    ensures PathLength(r) == PathLength(MatchPath(t, s).value) ==> r.code == MatchPath(t, s).value.code
  {
    var c := s + 5 + r.code;
    RunCovers(ShortcodeChars, t, s + 5, c);
    if r.query.Some? || r.slash {
      // The tail starts with `/`, which stops the shortcode run.
      if r.query.Some? {
        LitAt(t, c, "/?", 0);
      } else {
        LitAt(t, c, "/", 0);
      }
      RunStops(ShortcodeChars, t, s + 5, c);
      MatchTailLongest(t, c, r.query, r.slash);
    }
  }

  /** At a place reading `reel/` the segment run is `reel`, stopped by the `/`. */
  lemma ReelRun(t: string, q: nat)
    requires q <= |t| && Lit(t, q, "reel/")
    ensures Run(SegmentChars, t, q) == 4
  {
    LitAt(t, q, "reel/", 0);
    LitAt(t, q, "reel/", 1);
    LitAt(t, q, "reel/", 2);
    LitAt(t, q, "reel/", 3);
    LitAt(t, q, "reel/", 4);
    assert Chars(SegmentChars, t, q + 3, q + 4);
    assert Chars(SegmentChars, t, q + 1, q + 4);
    RunStops(SegmentChars, t, q, q + 4);
  }

  /**
   * A derivation without segment at `q` over text reading `reel/reel/` and a
   * shortcode character ends within `reel/reel/`: its shortcode is `reel`
   * at most, and its tail can only be the `/` after it.
   */
  lemma BarePathOverReel(t: string, q: nat, r: PathParse)
    requires PathAt(t, q, r) && Lit(t, q + 5, "reel/")
    requires q + 10 < |t| && InClass(ShortcodeChars, t[q + 10])
    ensures PathLength(r) <= 10
  {
    LitAt(t, q + 5, "reel/", 4);
    if r.code > 4 {
      CharsAt(ShortcodeChars, t, q + 5, q + 5 + r.code, q + 9);
    }
    var c := q + 5 + r.code;
    if r.query.Some? {
      // The shortcode is `reel`, so `?` would have to stand where a shortcode character is.
      LitAt(t, c, "/?", 0);
      LitAt(t, q + 5, "reel/", r.code);
      LitAt(t, c, "/?", 1);
    } else if r.slash {
      LitAt(t, c, "/", 0);
      LitAt(t, q + 5, "reel/", r.code);
    }
  }

  lemma RestLongestWithSegment(t: string, q: nat, segment: nat, r: PathParse)
    requires q <= |t| && segment > 0 && RestAt(t, q, segment, r)
    ensures MatchRest(t, q).Some?
    ensures RestLength(segment, r) <= RestLength(MatchRest(t, q).value.0, MatchRest(t, q).value.1)
    ensures RestLength(segment, r) == RestLength(MatchRest(t, q).value.0, MatchRest(t, q).value.1) ==>
      RestCodeOffset(segment) == RestCodeOffset(MatchRest(t, q).value.0) && r.code == MatchRest(t, q).value.1.code
  {
    LitAt(t, q + segment, "/", 0);
    RunStops(SegmentChars, t, q, q + segment);
    MatchPathLongest(t, q + segment + 1, r);
  }

  lemma RestLongestBare(t: string, q: nat, r: PathParse)
    requires q <= |t| && PathAt(t, q, r)
    ensures MatchRest(t, q).Some?
    ensures RestLength(0, r) <= RestLength(MatchRest(t, q).value.0, MatchRest(t, q).value.1)
    ensures RestLength(0, r) == RestLength(MatchRest(t, q).value.0, MatchRest(t, q).value.1) ==>
      RestCodeOffset(0) == RestCodeOffset(MatchRest(t, q).value.0) && r.code == MatchRest(t, q).value.1.code
  {
    MatchPathLongest(t, q, r);
    var n := Run(SegmentChars, t, q);
    if n > 0 && Lit(t, q + n, "/") && MatchPath(t, q + n + 1).Some? {
      SegmentBeatsBarePath(t, q, r);
    }
  }

  /**
   * When the segment alternative succeeds at `q` where a derivation without
   * segment starts, the text reads `reel/reel/` and a shortcode character,
   * so the segment alternative is the longer one.
   */
  lemma SegmentBeatsBarePath(t: string, q: nat, r: PathParse)
    requires q <= |t| && PathAt(t, q, r)
    requires Run(SegmentChars, t, q) > 0 && Lit(t, q + Run(SegmentChars, t, q), "/")
    requires MatchPath(t, q + Run(SegmentChars, t, q) + 1).Some?
    ensures Run(SegmentChars, t, q) == 4 && MatchPath(t, q + 5).Some?
    ensures MatchRest(t, q) == Some((4, MatchPath(t, q + 5).value))
    ensures PathLength(r) < RestLength(4, MatchPath(t, q + 5).value)
  {
    ReelRun(t, q);
    assert Lit(t, q + 5, "reel/") && q + 10 < |t| && InClass(ShortcodeChars, t[q + 10]);
    BarePathOverReel(t, q, r);
  }

  lemma MatchRestLongest(t: string, q: nat, segment: nat, r: PathParse)
    requires q <= |t| && RestAt(t, q, segment, r)
    ensures MatchRest(t, q).Some?
    ensures RestLength(segment, r) <= RestLength(MatchRest(t, q).value.0, MatchRest(t, q).value.1)
    ensures RestLength(segment, r) == RestLength(MatchRest(t, q).value.0, MatchRest(t, q).value.1) ==>
      RestCodeOffset(segment) == RestCodeOffset(MatchRest(t, q).value.0) && r.code == MatchRest(t, q).value.1.code
  {
    if segment > 0 {
      RestLongestWithSegment(t, q, segment, r);
    } else {
      RestLongestBare(t, q, r);
    }
  }

  /**
   * Every derivation of the pattern starting at `p` is at most as long as the
   * match, so the match is the longest one; a derivation of the same length
   * captures the same shortcode, at the same place.
   */
  lemma MatchAtLongest(t: string, p: nat, d: Parse)
    requires p <= |t| && Derives(t, p, d)
    ensures MatchAt(t, p).Some?
    ensures Length(d) <= Length(MatchAt(t, p).value)
    ensures Length(d) == Length(MatchAt(t, p).value) ==>
      CodeStart(p, d) == CodeStart(p, MatchAt(t, p).value) && d.path.code == MatchAt(t, p).value.path.code
  {
    MatchHeadSpec(t, p, d.secure, d.www);
    MatchRestLongest(t, p + HeadLength(d.secure, d.www), d.segment, d.path);
  }

  /** The matcher fails at `p` exactly when no derivation of the pattern starts there. */
  lemma MatchAtNoneIff(t: string, p: nat)
    requires p <= |t|
    ensures MatchAt(t, p).None? <==> !LinkAt(t, p)
  {
    if MatchAt(t, p).Some? {
      MatchAtSound(t, p);
    }
    if LinkAt(t, p) {
      var d :| Derives(t, p, d);
      MatchAtLongest(t, p, d);
    }
  }
}
