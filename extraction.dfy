/**
 * What handle_message (main.py) computes from a message text with the link
 * pattern: `re.findall`, which lists the captured shortcodes of the matches
 * from left to right, each search resuming where the previous match ended;
 * `fullmatch`, which tells whether the whole text is one link; and the
 * caption link rebuilt from a shortcode.
 */
module Extraction {
  import opened Wrappers
  import opened ReelPattern

  /** The shortcode captured by the derivation `d` spelled from `p` on. */
  function Code(t: string, p: nat, d: Parse): string
    requires CodeStart(p, d) + d.path.code <= |t|
  {
    t[CodeStart(p, d)..CodeStart(p, d) + d.path.code]
  }

  /** `re.findall` from position `pos` on: the shortcodes of the successive matches. */
  function Scan(t: string, pos: nat): seq<string>
    requires pos <= |t|
    decreases |t| - pos
  {
    match MatchAt(t, pos)
    case Some(d) => [Code(t, pos, d)] + Scan(t, pos + Length(d))
    case None => if pos < |t| then Scan(t, pos + 1) else []
  }

  /** `re.findall(INSTAGRAM_REEL_PATTERN, text)`: every shortcode linked in the text, in order. */
  function Extract(t: string): seq<string> {
    Scan(t, 0)
  }

  /** `INSTAGRAM_REEL_PATTERN.fullmatch(text)` succeeds: the text is one link and nothing else. */
  predicate IsLinkOnly(t: string) {
    MatchAt(t, 0).Some? && Length(MatchAt(t, 0).value) == |t|
  }

  /** The caption the bot puts under a downloaded reel. */
  function SourceLink(id: string): string {
    "https://instagram.com/reel/" + id
  }

  // ---------------------------------------------------------------------
  // findall
  // ---------------------------------------------------------------------

  /** The shortcode a derivation captures has the shape of a shortcode. */
  lemma CodeIsShortcode(t: string, p: nat, d: Parse)
    requires Derives(t, p, d)
    ensures CodeStart(p, d) + d.path.code <= |t| && IsShortcode(Code(t, p, d))
  {
    DerivesFits(t, p, d);
    DerivesCode(t, p, d);
    var a, n := CodeStart(p, d), d.path.code;
    var c := Code(t, p, d);
    forall i | 0 <= i < n
      ensures InClass(ShortcodeChars, c[i])
    {
      CharsAt(ShortcodeChars, t, a, a + n, a + i);
    }
    CharsOf(ShortcodeChars, c, 0, n);
  }

  /** Every item `re.findall` returns is a non-empty word of `[a-zA-Z0-9_-]`. */
  lemma ScanShortcodes(t: string, pos: nat)
    requires pos <= |t|
    ensures forall i :: 0 <= i < |Scan(t, pos)| ==> IsShortcode(Scan(t, pos)[i])
  {
    forall i | 0 <= i < |Scan(t, pos)|
      ensures IsShortcode(Scan(t, pos)[i])
    {
      ScanItem(t, pos, i);
    }
  }

  /** The `i`-th item of the search from `pos`, if there is one, is a shortcode. */
  lemma {:induction false} ScanItem(t: string, pos: nat, i: nat)
    requires pos <= |t|
    ensures i < |Scan(t, pos)| ==> IsShortcode(Scan(t, pos)[i])
    decreases |t| - pos
  {
    match MatchAt(t, pos)
    case Some(d) =>
      ScanHit(t, pos);
      if i == 0 {
        MatchAtSound(t, pos);
        CodeIsShortcode(t, pos, d);
      } else {
        ScanItem(t, pos + Length(d), i - 1);
      }
    case None =>
      if pos < |t| {
        ScanMiss(t, pos);
        ScanItem(t, pos + 1, i);
      }
  }

  /** `re.findall` finds nothing from `pos` on exactly when no link starts at or after `pos`. */
  lemma {:induction false} ScanEmptyIff(t: string, pos: nat)
    requires pos <= |t|
    ensures |Scan(t, pos)| == 0 <==> forall i :: pos <= i <= |t| ==> !LinkAt(t, i)
    decreases |t| - pos
  {
    MatchAtNoneIff(t, pos);
    if MatchAt(t, pos).None? && pos < |t| {
      ScanEmptyIff(t, pos + 1);
    }
  }

  /** The search passes over every place where no link starts. */
  lemma {:induction false} ScanSkips(t: string, pos: nat, i: nat)
    requires pos <= i <= |t|
    requires forall j :: pos <= j < i ==> !LinkAt(t, j)
    ensures Scan(t, pos) == Scan(t, i)
    decreases i - pos
  {
    if pos < i {
      MatchAtNoneIff(t, pos);
      ScanMiss(t, pos);
      ScanSkips(t, pos + 1, i);
    }
  }

  /**
   * The first item `re.findall` returns from `pos` comes from the leftmost
   * place `i` where a link starts, and the search then resumes where the
   * match found there ends.
   */
  lemma ScanLeftmost(t: string, pos: nat, i: nat)
    requires pos <= i <= |t| && LinkAt(t, i)
    requires forall j :: pos <= j < i ==> !LinkAt(t, j)
    ensures MatchAt(t, i).Some? && i + Length(MatchAt(t, i).value) <= |t|
    ensures CodeStart(i, MatchAt(t, i).value) + MatchAt(t, i).value.path.code <= |t|
    ensures Scan(t, pos) ==
      [Code(t, i, MatchAt(t, i).value)] + Scan(t, i + Length(MatchAt(t, i).value))
  {
    ScanSkips(t, pos, i);
    MatchAtNoneIff(t, i);
    ScanHit(t, i);
  }

  /** Where no match starts, the search moves on by one position. */
  lemma ScanMiss(t: string, pos: nat)
    requires pos < |t| && MatchAt(t, pos).None?
    ensures Scan(t, pos) == Scan(t, pos + 1)
  {
  }

  /** Where a match starts, its shortcode comes first and the search resumes at its end. */
  lemma ScanHit(t: string, pos: nat)
    requires pos <= |t| && MatchAt(t, pos).Some?
    ensures pos + Length(MatchAt(t, pos).value) <= |t|
    ensures CodeStart(pos, MatchAt(t, pos).value) + MatchAt(t, pos).value.path.code <= |t|
    ensures Scan(t, pos) ==
      [Code(t, pos, MatchAt(t, pos).value)] + Scan(t, pos + Length(MatchAt(t, pos).value))
  {
    MatchAtSound(t, pos);
    DerivesFits(t, pos, MatchAt(t, pos).value);
  }

  /** The text names no reel exactly when no link of the pattern occurs anywhere in it. */
  lemma ExtractEmptyIff(t: string)
    ensures |Extract(t)| == 0 <==> forall i :: 0 <= i <= |t| ==> !LinkAt(t, i)
  {
    ScanEmptyIff(t, 0);
  }

  // ---------------------------------------------------------------------
  // fullmatch
  // ---------------------------------------------------------------------

  /** `fullmatch` succeeds exactly when some derivation of the pattern spells the whole text. */
  lemma IsLinkOnlyIff(t: string)
    ensures IsLinkOnly(t) <==> exists d :: Derives(t, 0, d) && Length(d) == |t|
  {
    if IsLinkOnly(t) {
      MatchAtSound(t, 0);
      assert Derives(t, 0, MatchAt(t, 0).value);
    }
    if exists d :: Derives(t, 0, d) && Length(d) == |t| {
      var d :| Derives(t, 0, d) && Length(d) == |t|;
      MatchAtLongest(t, 0, d);
      MatchAtSound(t, 0);
      DerivesFits(t, 0, MatchAt(t, 0).value);
    }
  }

  /** A text that is one link and nothing else names exactly one reel. */
  lemma LinkOnlyOneCode(t: string)
    requires IsLinkOnly(t)
    ensures |Extract(t)| == 1
    ensures IsShortcode(Extract(t)[0])
  {
    ScanHit(t, 0);
    ScanAtEnd(t);
    ScanShortcodes(t, 0);
  }

  /** A word occurs wherever a slice of the text equals it. */
  lemma LitOfSlice(t: string, p: nat, w: string)
    requires p + |w| <= |t| && t[p..p + |w|] == w
    ensures Lit(t, p, w)
  {
    forall k | 0 <= k < |w|
      ensures t[p + k] == w[k]
    {
      assert t[p..p + |w|][k] == t[p + k];
    }
    LitFromOf(t, p, w, 0);
  }

  /** The match at `p` makes the scheme and `www.` choices the head matcher makes there. */
  lemma MatchAtHead(t: string, p: nat)
    requires p <= |t| && MatchAt(t, p).Some?
    ensures MatchHead(t, p) == Some((MatchAt(t, p).value.secure, MatchAt(t, p).value.www))
  {
  }

  // ---------------------------------------------------------------------
  // The caption link
  // ---------------------------------------------------------------------

  /** The fixed prefix of the caption link is the `https` head followed by `reel/`. */
  lemma PrefixPieces()
    ensures "https://instagram.com/reel/" == "http" + "s://" + "instagram.com/" + "reel/"
  {
  }

  /** Every caption-style link starts with the head `https://instagram.com/` and reads `reel/` after it. */
  lemma SourceLinkHead(w: string)
    ensures HeadAt(SourceLink(w), 0, true, false)
    ensures Lit(SourceLink(w), 22, "reel/")
  {
    var a, b, c, e := "http", "s://", "instagram.com/", "reel/";
    PrefixPieces();
    LitSelf(a);
    LitSelf(b);
    LitSelf(c);
    LitSelf(e);
    LitExtend(a, b, 0, a);
    LitShift(a, b, 0, b);
    LitExtend(a + b, c, 0, a);
    LitExtend(a + b, c, 4, b);
    LitShift(a + b, c, 0, c);
    LitExtend(a + b + c, e, 0, a);
    LitExtend(a + b + c, e, 4, b);
    LitExtend(a + b + c, e, 8, c);
    LitShift(a + b + c, e, 0, e);
    LitExtend(a + b + c + e, w, 0, a);
    LitExtend(a + b + c + e, w, 4, b);
    LitExtend(a + b + c + e, w, 8, c);
    LitExtend(a + b + c + e, w, 22, e);
  }

  /** The caption link spells the derivation `https`, no `www.`, no segment, no tail. */
  lemma SourceLinkDerives(id: string)
    requires IsShortcode(id)
    ensures Derives(SourceLink(id), 0, Parse(true, false, 0, PathParse(|id|, None, false)))
  {
    var t := SourceLink(id);
    SourceLinkHead(id);
    forall i | 27 <= i < 27 + |id|
      ensures InClass(ShortcodeChars, t[i])
    {
      CharsAt(ShortcodeChars, id, 0, |id|, i - 27);
    }
    CharsOf(ShortcodeChars, t, 27, 27 + |id|);
  }

  /**
   * A derivation without tail that spells the whole text from `p` on is the
   * match the engine finds there.
   */
  lemma MatchAtWhole(t: string, p: nat, d: Parse)
    requires p <= |t| && Derives(t, p, d) && p + Length(d) == |t|
    requires d.path.query == None && !d.path.slash
    ensures MatchAt(t, p) == Some(d)
  {
    MatchAtLongest(t, p, d);
    MatchHeadSpec(t, p, d.secure, d.www);
    MatchAtHead(t, p);
  }

  /** Where `reel/` stands, it can be read as the user segment `reel` followed by its `/`. */
  lemma ReelSegment(t: string, q: nat)
    requires Lit(t, q, "reel/")
    ensures Chars(SegmentChars, t, q, q + 4) && Lit(t, q + 4, "/")
  {
    LitAt(t, q, "reel/", 0);
    LitAt(t, q, "reel/", 1);
    LitAt(t, q, "reel/", 2);
    LitAt(t, q, "reel/", 3);
    LitAt(t, q, "reel/", 4);
    CharsOf(SegmentChars, t, q, q + 4);
    LitOfSlice(t, q + 4, "/");
  }

  /**
   * After the head, `https://instagram.com/reel/reel/<id>` reads the user
   * segment `reel`, a `/` and the path `reel/<id>`.
   */
  lemma ReelReelRest(id: string)
    requires IsShortcode(id)
    ensures RestAt(SourceLink("reel/" + id), 22, 4, PathParse(|id|, None, false))
  {
    var t := SourceLink("reel/" + id);
    SourceLinkHead("reel/" + id);
    LitSelf("reel/");
    LitExtend("reel/", id, 0, "reel/");
    LitShift("https://instagram.com/reel/", "reel/" + id, 0, "reel/");
    ReelSegment(t, 22);
    forall i | 32 <= i < 32 + |id|
      ensures InClass(ShortcodeChars, t[i])
    {
      assert t[i] == id[i - 32];
      CharsAt(ShortcodeChars, id, 0, |id|, i - 32);
    }
    CharsOf(ShortcodeChars, t, 32, 32 + |id|);
  }

  /** `https://instagram.com/reel/reel/<id>` spells the derivation with user segment `reel` and shortcode `<id>`. */
  lemma ReelReelDerives(id: string)
    requires IsShortcode(id)
    ensures Derives(SourceLink("reel/" + id), 0, Parse(true, false, 4, PathParse(|id|, None, false)))
  {
    SourceLinkHead("reel/" + id);
    ReelReelRest(id);
  }

  /**
   * On `https://instagram.com/reel/reel/<id>` the engine takes `reel` as the
   * user segment and captures `<id>`, not the second `reel`.
   */
  lemma ReelReelMatch(id: string)
    requires IsShortcode(id)
    ensures MatchAt(SourceLink("reel/" + id), 0) == Some(Parse(true, false, 4, PathParse(|id|, None, false)))
  {
    ReelReelDerives(id);
    MatchAtWhole(SourceLink("reel/" + id), 0, Parse(true, false, 4, PathParse(|id|, None, false)));
  }

  /** `https://instagram.com/reel/reel/<id>` is a link and nothing else. */
  lemma ReelReelLinkOnly(id: string)
    requires IsShortcode(id)
    ensures IsLinkOnly(SourceLink("reel/" + id))
  {
    ReelReelMatch(id);
  }

  /** `https://instagram.com/reel/reel/<id>` names the reel `<id>` and no other. */
  lemma ReelReelExtract(id: string)
    requires IsShortcode(id)
    ensures Extract(SourceLink("reel/" + id)) == [id]
  {
    var t := SourceLink("reel/" + id);
    ReelReelMatch(id);
    ScanHit(t, 0);
    ScanAtEnd(t);
    assert t[32..32 + |id|] == id;
  }

  /** On the caption link the matcher takes the whole text, and the shortcode right after the prefix. */
  lemma SourceLinkMatch(id: string)
    requires IsShortcode(id)
    ensures MatchAt(SourceLink(id), 0).Some?
    ensures Length(MatchAt(SourceLink(id), 0).value) == |SourceLink(id)|
    ensures CodeStart(0, MatchAt(SourceLink(id), 0).value) == 27
    ensures MatchAt(SourceLink(id), 0).value.path.code == |id|
  {
    SourceLinkDerives(id);
    MatchAtLongest(SourceLink(id), 0, Parse(true, false, 0, PathParse(|id|, None, false)));
  }

  /** At the very end of a text no link starts, so the search stops there. */
  lemma ScanAtEnd(t: string)
    ensures Scan(t, |t|) == []
  {
    assert !Lit(t, |t|, "http");
  }

  /**
   * The caption link of a shortcode is itself a link and nothing else, and the
   * bot reads back from it exactly that shortcode.
   */
  lemma SourceLinkRoundTrip(id: string)
    requires IsShortcode(id)
    ensures IsLinkOnly(SourceLink(id))
    ensures Extract(SourceLink(id)) == [id]
  {
    var t := SourceLink(id);
    SourceLinkMatch(id);
    ScanHit(t, 0);
    ScanAtEnd(t);
    assert Code(t, 0, MatchAt(t, 0).value) == t[27..27 + |id|] == id;
  }

  /** Every shortcode the bot extracts gives a caption link that reads back as that shortcode. */
  lemma ExtractedSourceLinks(t: string)
    ensures forall i :: 0 <= i < |Extract(t)| ==>
      IsLinkOnly(SourceLink(Extract(t)[i])) && Extract(SourceLink(Extract(t)[i])) == [Extract(t)[i]]
  {
    ScanShortcodes(t, 0);
    forall i | 0 <= i < |Extract(t)|
      ensures IsLinkOnly(SourceLink(Extract(t)[i])) && Extract(SourceLink(Extract(t)[i])) == [Extract(t)[i]]
    {
      SourceLinkRoundTrip(Extract(t)[i]);
    }
  }
}
