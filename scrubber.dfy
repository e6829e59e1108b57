/**
 * The transcript scrubber: three regular-expression substitutions, each a
 * literal prefix followed by a fixed number of characters of one class. A
 * match keeps its prefix and has its characters replaced by "[FILTERED]".
 */
module Scrubber {

  const Filtered := "[FILTERED]"

  /** The three character classes the patterns use. */
  datatype CharClass =
    | AnyChar        // [\w|\D]: every character
    | NonSpace       // \S: not one of space, \t, \n, \v, \f, \r
    | AlphaNumeric   // [a-zA-Z\d]
  {
    predicate Has(c: char)
    {
      match this
      case AnyChar => true
      case NonSpace => !(c == ' ' || ('\t' <= c <= '\r'))
      case AlphaNumeric => ('a' <= c <= 'z') || ('A' <= c <= 'Z') || ('0' <= c <= '9')
    }
  }

  /** `(prefix)[class]{width}` */
  datatype Pattern = Pattern(prefix: string, cls: CharClass, width: nat)

  /** The card nonce inside the logged JSON body, whose quotes are backslash-escaped. */
  const NoncePrefix := "\\\"card_nonce\\\":\\\""
  const BearerPrefix := "Authorization: Bearer "
  const LocationPrefix := "/locations/"

  const NoncePattern := Pattern(NoncePrefix, AnyChar, 30)
  const LocationPattern := Pattern(LocationPrefix, AlphaNumeric, 30)

  function BearerPattern(tokenSize: nat): Pattern
  {
    Pattern(BearerPrefix, NonSpace, tokenSize)
  }

  /** The pattern matches at the start of `s`. */
  predicate MatchesAt(s: string, p: Pattern)
  {
    |p.prefix| + p.width <= |s| && s[..|p.prefix|] == p.prefix
    && forall j :: |p.prefix| <= j < |p.prefix| + p.width ==> p.cls.Has(s[j])
  }

  /**
   * gsub(pattern, '\1[FILTERED]'): scanning left to right, each match is
   * replaced by its prefix and the marker and scanning resumes after it;
   * every other character is copied.
   */
  function Gsub(s: string, p: Pattern): (r: string)
    requires p.prefix != []
    ensures Free(s, p.prefix) ==> r == s
    decreases |s|
  {
    FreeStart(s, p);
    if MatchesAt(s, p) then p.prefix + Filtered + Gsub(s[|p.prefix| + p.width..], p)
    else if s == [] then []
    else [s[0]] + Gsub(s[1..], p)
  }

  /**
   * scrub: the nonce, then the bearer token of `tokenSize` characters, then
   * the location id; a transcript in which no pattern can start is left as
   * it is.
   */
  function Scrub(transcript: string, tokenSize: nat): (r: string)
    ensures Unmatched(transcript) ==> r == transcript
  {
    Gsub(Gsub(Gsub(transcript, NoncePattern), BearerPattern(tokenSize)), LocationPattern)
  }

  // ---------------------------------------------------------------------
  // What a substitution does
  // ---------------------------------------------------------------------

  /** No match starts at any of the first `|a|` positions of `a + r`. */
  predicate NoMatchIn(a: string, r: string, p: Pattern)
  {
    forall i :: 0 <= i < |a| ==> !MatchesAt((a + r)[i..], p)
  }

  /** Text in which no match starts is copied unchanged. */
  lemma {:induction false} GsubCopiesUnmatched(a: string, r: string, p: Pattern)
    requires p.prefix != []
    requires NoMatchIn(a, r, p)
    ensures Gsub(a + r, p) == a + Gsub(r, p)
    decreases |a|
  {
    if a != [] {
      NoMatchTail(a, r, p);
      GsubCopiesUnmatched(a[1..], r, p);
      GsubCopiesStep(a, r, p);
    } else {
      assert a + r == r;
    }
  }

  lemma GsubCopiesStep(a: string, r: string, p: Pattern)
    requires p.prefix != [] && a != [] && !MatchesAt(a + r, p)
    requires Gsub(a[1..] + r, p) == a[1..] + Gsub(r, p)
    ensures Gsub(a + r, p) == a + Gsub(r, p)
  {
    GsubCopiesFirst(a, r, p);
    Cons(a, Gsub(r, p));
  }

  lemma Cons(a: string, g: string)
    requires a != []
    ensures [a[0]] + (a[1..] + g) == a + g
  {
    assert a == [a[0]] + a[1..];
  }

  lemma NoMatchTail(a: string, r: string, p: Pattern)
    requires a != [] && NoMatchIn(a, r, p)
    ensures NoMatchIn(a[1..], r, p) && !MatchesAt(a + r, p)
  {
    assert (a + r)[0..] == a + r;
    forall i | 0 <= i < |a[1..]| ensures !MatchesAt((a[1..] + r)[i..], p) {
      assert (a[1..] + r)[i..] == (a + r)[i + 1..];
    }
  }

  lemma GsubCopiesFirst(a: string, r: string, p: Pattern)
    requires p.prefix != [] && a != [] && !MatchesAt(a + r, p)
    ensures Gsub(a + r, p) == [a[0]] + Gsub(a[1..] + r, p)
  {
    assert (a + r)[1..] == a[1..] + r;
  }

  /**
   * The leftmost match: everything before it is copied, its prefix is kept,
   * its window becomes the marker, and scanning goes on after the window.
   */
  lemma GsubFirstMatch(a: string, w: string, d: string, p: Pattern)
    requires p.prefix != []
    requires |w| == p.width && forall j :: 0 <= j < |w| ==> p.cls.Has(w[j])
    requires NoMatchIn(a, p.prefix + w + d, p)
    ensures Gsub(a + p.prefix + w + d, p) == a + p.prefix + Filtered + Gsub(d, p)
  {
    var m := p.prefix + w + d;
    Assoc(p.prefix + w, d);
    Assoc(p.prefix, w);
    GsubCopiesUnmatched(a, m, p);
    GsubAtMatch(w, d, p);
    Assoc(p.prefix + Filtered, Gsub(d, p));
    Assoc(p.prefix, Filtered);
  }

  /** A match at the very start: its prefix is kept, its window becomes the marker. */
  lemma GsubAtMatch(w: string, d: string, p: Pattern)
    requires p.prefix != []
    requires |w| == p.width && forall j :: 0 <= j < |w| ==> p.cls.Has(w[j])
    ensures Gsub(p.prefix + w + d, p) == p.prefix + Filtered + Gsub(d, p)
  {
    var m := p.prefix + w + d;
    assert m[..|p.prefix|] == p.prefix;
    forall j | |p.prefix| <= j < |p.prefix| + p.width ensures p.cls.Has(m[j]) {
      assert m[j] == w[j - |p.prefix|];
    }
    assert MatchesAt(m, p);
    assert m[|p.prefix| + p.width..] == d;
  }

  // ---------------------------------------------------------------------
  // Text in which no match can start
  // ---------------------------------------------------------------------

  /** `u` and `q` agree as far as both go: `u` starts with `q`, or `u` is a beginning of `q`. */
  predicate Agree(u: string, q: string)
  {
    forall j :: 0 <= j < |u| && j < |q| ==> u[j] == q[j]
  }

  /**
   * No position of `t` starts `q`, nor a beginning of `q` that runs to the
   * end of `t`: a match of a pattern with prefix `q` cannot start in `t`,
   * whatever text follows it.
   */
  predicate Free(t: string, q: string)
  {
    forall i :: 0 <= i < |t| ==> !Agree(t[i..], q)
  }

  /** No match of a pattern can start in a text free of its prefix. */
  lemma FreeNoMatch(a: string, r: string, p: Pattern)
    requires Free(a, p.prefix)
    ensures NoMatchIn(a, r, p)
  {
    forall i | 0 <= i < |a| ensures !MatchesAt((a + r)[i..], p) {
      assert !Agree(a[i..], p.prefix);
      var j :| 0 <= j < |a[i..]| && j < |p.prefix| && a[i..][j] != p.prefix[j];
      var t := (a + r)[i..];
      assert |p.prefix| <= |t| ==> t[..|p.prefix|][j] == a[i..][j];
    }
  }

  /** In a text free of the prefix no match starts at its first position, and the rest is free too. */
  lemma FreeStart(s: string, p: Pattern)
    ensures Free(s, p.prefix) && s != [] ==> !MatchesAt(s, p) && Free(s[1..], p.prefix)
  {
    if Free(s, p.prefix) && s != [] {
      FreeNoMatch(s, [], p);
      assert (s + [])[0..] == s;
      forall i | 0 <= i < |s[1..]| ensures !Agree(s[1..][i..], p.prefix) {
        assert s[1..][i..] == s[i + 1..];
      }
    }
  }

  /** A text without the prefix's first character is free of it. */
  lemma LeadFree(t: string, q: string)
    requires q != [] && q[0] !in t
    ensures Free(t, q)
  {
    forall i | 0 <= i < |t| ensures !Agree(t[i..], q) {
      assert t[i..][0] == t[i];
    }
  }

  /**
   * A character followed by a text free of `q` is free of `q` when it is
   * not `q`'s first character or the text departs from `q` at offset `k`.
   */
  lemma HeadFree(h: char, r: string, q: string, k: nat)
    requires Free(r, q)
    requires q != [] && (h != q[0] || (0 < k < |q| && k <= |r| && r[k - 1] != q[k]))
    ensures Free([h] + r, q)
  {
    var t := [h] + r;
    forall i | 0 <= i < |t| ensures !Agree(t[i..], q) {
      if i == 0 {
        if h != q[0] {
          assert t[i..][0] == h;
        } else {
          assert t[i..][k] == r[k - 1];
        }
      } else {
        assert t[i..] == r[i - 1..];
      }
    }
  }

  /**
   * Two texts free of `q` make a free text: a beginning of `q` at the end of
   * the first would already break `Free` there.
   */
  lemma FreeConcat(a: string, b: string, q: string)
    requires Free(a, q) && Free(b, q)
    ensures Free(a + b, q)
  {
    forall i | 0 <= i < |a + b| ensures !Agree((a + b)[i..], q) {
      if i < |a| {
        assert !Agree(a[i..], q);
        var j :| 0 <= j < |a[i..]| && j < |q| && a[i..][j] != q[j];
        assert (a + b)[i..][j] == a[i..][j];
      } else {
        assert (a + b)[i..] == b[i - |a|..];
      }
    }
  }

  /** Each `x` in `a` is followed, still inside `a`, by a character other than `y`. */
  predicate PairFree(a: string, x: char, y: char)
  {
    forall i :: 0 <= i < |a| ==> a[i] != x || (i + 1 < |a| && a[i + 1] != y)
  }

  /**
   * A text is free of `q` when each occurrence of `q`'s first character in
   * it is followed, still inside it, by a character other than `q`'s second.
   */
  lemma PairFreeFree(a: string, q: string)
    requires |q| >= 2 && PairFree(a, q[0], q[1])
    ensures Free(a, q)
  {
    forall i | 0 <= i < |a| ensures !Agree(a[i..], q) {
      if a[i] == q[0] {
        assert i + 1 < |a| && a[i + 1] != q[1];
        assert a[i..][1] == a[i + 1];
      } else {
        assert a[i..][0] == a[i];
      }
    }
  }

  /**
   * One substitution over text holding a single match: the text before it
   * and the text after its window are free of the prefix, so the window
   * becomes the marker and nothing else changes.
   */
  lemma Step(a: string, w: string, d: string, p: Pattern)
    requires p.prefix != [] && Free(a, p.prefix) && Free(d, p.prefix)
    requires |w| == p.width && forall j :: 0 <= j < |w| ==> p.cls.Has(w[j])
    ensures Gsub(a + p.prefix + w + d, p) == a + p.prefix + Filtered + d
  {
    FreeNoMatch(a, p.prefix + w + d, p);
    GsubFirstMatch(a, w, d, p);
  }

  // ---------------------------------------------------------------------
  // The unit test's transcript
  // ---------------------------------------------------------------------

  /** The location id, bearer token and card nonce of the unit test's transcript. */
  const FixtureLocation := "CBASExxxxxxxxxxxxQGS9MhWrmAgAQ"
  const FixtureToken := "sandbox-sq0atb-xxxxxxxxxxxxE8vhrk5efg"
  const FixtureNonce := "CBASxxxxxxxxxxxx-KejVlnpaxEgAQ"

  /** No match of any of the three patterns can start in `t`. */
  predicate Unmatched(t: string)
  {
    Free(t, NoncePrefix) && Free(t, BearerPrefix) && Free(t, LocationPrefix)
  }

  /** Appending a concatenation is appending its parts in turn. */
  lemma Assoc(a: string, b: string)
    ensures forall c :: c + (a + b) == c + a + b
  {
  }

  /** `t` is free of all three prefixes. */
  predicate Clear(t: string, np: Pattern, bp: Pattern, lp: Pattern)
  {
    Free(t, np.prefix) && Free(t, bp.prefix) && Free(t, lp.prefix)
  }

  /**
   * The three passes over a transcript holding one location id `loc`, one
   * bearer token `tok` and one nonce `non`, in this order, between text in
   * which no pattern can start; the prefixes, the ids and the marker start
   * no match of a later pass either.
   */
  lemma ThreePasses(t0: string, loc: string, t1: string, tok: string, t2: string, non: string, t3: string,
                    np: Pattern, bp: Pattern, lp: Pattern)
    requires np.prefix != [] && bp.prefix != [] && lp.prefix != []
    requires Clear(t0, np, bp, lp) && Clear(t1, np, bp, lp) && Clear(t2, np, bp, lp) && Clear(t3, np, bp, lp)
    requires Free(lp.prefix, np.prefix) && Free(loc, np.prefix) && Free(bp.prefix, np.prefix) && Free(tok, np.prefix)
    requires Free(lp.prefix, bp.prefix) && Free(loc, bp.prefix) && Free(np.prefix, bp.prefix) && Free(Filtered, bp.prefix)
    requires Free(bp.prefix, lp.prefix) && Free(np.prefix, lp.prefix) && Free(Filtered, lp.prefix)
    requires |non| == np.width && forall j :: 0 <= j < |non| ==> np.cls.Has(non[j])
    requires |tok| == bp.width && forall j :: 0 <= j < |tok| ==> bp.cls.Has(tok[j])
    requires |loc| == lp.width && forall j :: 0 <= j < |loc| ==> lp.cls.Has(loc[j])
    ensures Gsub(Gsub(Gsub(t0 + lp.prefix + loc + t1 + bp.prefix + tok + t2 + np.prefix + non + t3, np), bp), lp)
         == t0 + lp.prefix + Filtered + t1 + bp.prefix + Filtered + t2 + np.prefix + Filtered + t3
  {
    NonceLead(t0, lp.prefix, loc, t1, bp.prefix, tok, np.prefix);
    NoncePass(t0 + lp.prefix + loc + t1 + bp.prefix + tok, t2, non, t3, np);
    BearerTail(t2, np.prefix, t3, bp.prefix);
    FreeConcat(t0, lp.prefix, bp.prefix);
    BearerPass(t0 + lp.prefix, loc, t1, tok, t2 + np.prefix + Filtered + t3, bp);
    LocationTail(t1, bp.prefix, t2, np.prefix, t3, lp.prefix);
    LocationPass(t0, loc, t1 + bp.prefix + Filtered, t2 + np.prefix + Filtered + t3, lp);
    Flatten(t0 + lp.prefix + Filtered, t1, bp.prefix, t2, np.prefix, t3, Filtered);
  }

  /** The text before the nonce is free of the nonce prefix, piece by piece. */
  lemma NonceLead(t0: string, lpp: string, loc: string, t1: string, bpp: string, tok: string, npp: string)
    requires Free(t0, npp) && Free(lpp, npp) && Free(loc, npp) && Free(t1, npp) && Free(bpp, npp) && Free(tok, npp)
    ensures Free(t0 + lpp + loc + t1 + bpp + tok, npp)
  {
    FreeConcat(t0, lpp, npp);
    FreeConcat(t0 + lpp, loc, npp);
    FreeConcat(t0 + lpp + loc, t1, npp);
    FreeConcat(t0 + lpp + loc + t1, bpp, npp);
    FreeConcat(t0 + lpp + loc + t1 + bpp, tok, npp);
  }

  /** After the nonce pass, the text after the bearer token is free of the bearer prefix. */
  lemma BearerTail(t2: string, npp: string, t3: string, bpp: string)
    requires Free(t2, bpp) && Free(npp, bpp) && Free(Filtered, bpp) && Free(t3, bpp)
    ensures Free(t2 + npp + Filtered + t3, bpp)
  {
    FreeConcat(t2, npp, bpp);
    FreeConcat(t2 + npp, Filtered, bpp);
    FreeConcat(t2 + npp + Filtered, t3, bpp);
  }

  /** After the first two passes, the text after the location id is free of the location prefix. */
  lemma LocationTail(t1: string, bpp: string, t2: string, npp: string, t3: string, lpp: string)
    requires Free(t1, lpp) && Free(bpp, lpp) && Free(Filtered, lpp)
    requires Free(t2, lpp) && Free(npp, lpp) && Free(t3, lpp)
    ensures Free(t1 + bpp + Filtered, lpp) && Free(t2 + npp + Filtered + t3, lpp)
  {
    FreeConcat(t1, bpp, lpp);
    FreeConcat(t1 + bpp, Filtered, lpp);
    BearerTail(t2, npp, t3, lpp);
  }

  /** Regrouping the scrubbed transcript's pieces. */
  lemma Flatten(f: string, t1: string, bpp: string, t2: string, npp: string, t3: string, m: string)
    ensures f + (t1 + bpp + m) + (t2 + npp + m + t3) == f + t1 + bpp + m + t2 + npp + m + t3
  {
    Assoc(t1 + bpp, m);
    Assoc(t1, bpp);
    Assoc(t2 + npp + m, t3);
    Assoc(t2 + npp, m);
    Assoc(t2, npp);
  }

  /** The first pass of ThreePasses, with the text before `t2` taken as one piece `a`. */
  lemma NoncePass(a: string, t2: string, non: string, t3: string, np: Pattern)
    requires np.prefix != [] && Free(a, np.prefix) && Free(t2, np.prefix) && Free(t3, np.prefix)
    requires |non| == np.width && forall j :: 0 <= j < |non| ==> np.cls.Has(non[j])
    ensures Gsub(a + t2 + np.prefix + non + t3, np) == a + (t2 + np.prefix + Filtered + t3)
  {
    FreeConcat(a, t2, np.prefix);
    Step(a + t2, non, t3, np);
    Assoc(t2 + np.prefix + Filtered, t3);
    Assoc(t2 + np.prefix, Filtered);
    Assoc(t2, np.prefix);
  }

  /** The second pass of ThreePasses, with the text before the location id taken as one piece `b`. */
  lemma BearerPass(b: string, loc: string, t1: string, tok: string, d2: string, bp: Pattern)
    requires bp.prefix != [] && Free(b, bp.prefix) && Free(loc, bp.prefix) && Free(t1, bp.prefix)
    requires Free(d2, bp.prefix)
    requires |tok| == bp.width && forall j :: 0 <= j < |tok| ==> bp.cls.Has(tok[j])
    ensures Gsub(b + loc + t1 + bp.prefix + tok + d2, bp) == b + loc + (t1 + bp.prefix + Filtered + d2)
  {
    FreeConcat(b, loc, bp.prefix);
    FreeConcat(b + loc, t1, bp.prefix);
    Step(b + loc + t1, tok, d2, bp);
    Assoc(t1 + bp.prefix + Filtered, d2);
    Assoc(t1 + bp.prefix, Filtered);
    Assoc(t1, bp.prefix);
  }

  /** The last pass of ThreePasses. */
  lemma LocationPass(t0: string, loc: string, e1: string, e2: string, lp: Pattern)
    requires lp.prefix != [] && Free(t0, lp.prefix) && Free(e1, lp.prefix) && Free(e2, lp.prefix)
    requires |loc| == lp.width && forall j :: 0 <= j < |loc| ==> lp.cls.Has(loc[j])
    ensures Gsub(t0 + lp.prefix + loc + (e1 + e2), lp) == t0 + lp.prefix + Filtered + e1 + e2
  {
    FreeConcat(e1, e2, lp.prefix);
    Step(t0, loc, e1 + e2, lp);
    Assoc(e1, e2);
  }

  /**
   * The unit test's transcript, in which the location id, the bearer token
   * and the card nonce appear in this order, scrubs to the expected text
   * whatever text lies around them, so long as no pattern can start in it:
   * each of the three windows becomes the marker behind its kept prefix
   * and every other character is unchanged.
   */
  lemma ScrubTranscript(t0: string, t1: string, t2: string, t3: string)
    requires Unmatched(t0) && Unmatched(t1) && Unmatched(t2) && Unmatched(t3)
    ensures Scrub(t0 + LocationPrefix + FixtureLocation + t1 + BearerPrefix + FixtureToken
                  + t2 + NoncePrefix + FixtureNonce + t3, |FixtureToken|)
         == t0 + LocationPrefix + Filtered + t1 + BearerPrefix + Filtered
            + t2 + NoncePrefix + Filtered + t3
  {
    var np, bp, lp := NoncePattern, BearerPattern(|FixtureToken|), LocationPattern;
    NonceFree();
    BearerFree();
    LocationFree();
    FixtureWindows();
    ThreePasses(t0, FixtureLocation, t1, FixtureToken, t2, FixtureNonce, t3, np, bp, lp);
  }

  /** The other prefixes and the fixture's ids start no nonce match. */
  lemma NonceFree()
    ensures Free(LocationPrefix, NoncePrefix) && Free(FixtureLocation, NoncePrefix)
    ensures Free(BearerPrefix, NoncePrefix) && Free(FixtureToken, NoncePrefix)
  {
    assert NoncePrefix[0] == '\\';
    LocationPrefixLeads();
    BearerPrefixLeads();
    FixtureLeads();
    LeadFree(LocationPrefix, NoncePrefix);
    LeadFree(FixtureLocation, NoncePrefix);
    LeadFree(BearerPrefix, NoncePrefix);
    LeadFree(FixtureToken, NoncePrefix);
  }

  /** The other prefixes, the fixture's location id and the marker start no bearer match. */
  lemma BearerFree()
    ensures Free(LocationPrefix, BearerPrefix) && Free(FixtureLocation, BearerPrefix)
    ensures Free(NoncePrefix, BearerPrefix) && Free(Filtered, BearerPrefix)
  {
    assert BearerPrefix[0] == 'A' && BearerPrefix[1] == 'u';
    LocationPrefixLeads();
    NoncePrefixLeads();
    FilteredLeads();
    FixtureLocationPairs();
    LeadFree(LocationPrefix, BearerPrefix);
    PairFreeFree(FixtureLocation, BearerPrefix);
    LeadFree(NoncePrefix, BearerPrefix);
    LeadFree(Filtered, BearerPrefix);
  }

  /** The other prefixes and the marker start no location match. */
  lemma LocationFree()
    ensures Free(BearerPrefix, LocationPrefix) && Free(NoncePrefix, LocationPrefix) && Free(Filtered, LocationPrefix)
  {
    assert LocationPrefix[0] == '/';
    BearerPrefixLeads();
    NoncePrefixLeads();
    FilteredLeads();
    LeadFree(BearerPrefix, LocationPrefix);
    LeadFree(NoncePrefix, LocationPrefix);
    LeadFree(Filtered, LocationPrefix);
  }

  lemma FilteredLeads()
    ensures '\\' !in Filtered && 'A' !in Filtered && '/' !in Filtered
  {
  }

  lemma LocationPrefixLeads()
    ensures 'A' !in LocationPrefix && '\\' !in LocationPrefix
  {
  }

  lemma BearerPrefixLeads()
    ensures '/' !in BearerPrefix && '\\' !in BearerPrefix
  {
  }

  lemma NoncePrefixLeads()
    ensures 'A' !in NoncePrefix && '/' !in NoncePrefix
  {
  }

  /** The fixture's ids hold no lead character that could start another match inside them. */
  lemma FixtureLeads()
    ensures '\\' !in FixtureLocation && '\\' !in FixtureToken
  {
    FixtureLocationLeads();
    FixtureTokenLeads();
  }

  lemma FixtureLocationLeads()
    ensures '\\' !in FixtureLocation
  {
  }

  lemma FixtureTokenLeads()
    ensures '\\' !in FixtureToken
  {
  }

  /** Each 'A' in the fixture's location id is followed by a character other than 'u'. */
  lemma FixtureLocationPairs()
    ensures PairFree(FixtureLocation, 'A', 'u')
  {
  }

  /** The fixture's ids fill their windows. */
  lemma FixtureWindows()
    ensures |FixtureNonce| == 30 && forall j :: 0 <= j < |FixtureNonce| ==> AnyChar.Has(FixtureNonce[j])
    ensures forall j :: 0 <= j < |FixtureToken| ==> NonSpace.Has(FixtureToken[j])
    ensures |FixtureLocation| == 30 && forall j :: 0 <= j < |FixtureLocation| ==> AlphaNumeric.Has(FixtureLocation[j])
  {
  }

  // ---------------------------------------------------------------------
  // Lead characters in the transcript's own text
  // ---------------------------------------------------------------------

  /**
   * A lead character followed by text without any lead character starts
   * no match when the text departs, at offset `k`, from the one prefix
   * that begins with it.
   */
  lemma ChunkUnmatched(h: char, r: string, k: nat)
    requires '\\' !in r && 'A' !in r && '/' !in r
    requires h == '\\' ==> 0 < k < |NoncePrefix| && k <= |r| && r[k - 1] != NoncePrefix[k]
    requires h == 'A' ==> 0 < k < |BearerPrefix| && k <= |r| && r[k - 1] != BearerPrefix[k]
    requires h == '/' ==> 0 < k < |LocationPrefix| && k <= |r| && r[k - 1] != LocationPrefix[k]
    ensures Unmatched([h] + r)
  {
    assert NoncePrefix[0] == '\\' && BearerPrefix[0] == 'A' && LocationPrefix[0] == '/';
    LeadFree(r, NoncePrefix);
    LeadFree(r, BearerPrefix);
    LeadFree(r, LocationPrefix);
    HeadFree(h, r, NoncePrefix, k);
    HeadFree(h, r, BearerPrefix, k);
    HeadFree(h, r, LocationPrefix, k);
  }

  /** The same text, written as one literal. */
  lemma UnmatchedSame(a: string, b: string)
    requires Unmatched(a) && a == b
    ensures Unmatched(b)
  {
  }

  lemma UnmatchedConcat(a: string, b: string)
    requires Unmatched(a) && Unmatched(b)
    ensures Unmatched(a + b)
  {
    FreeConcat(a, b, NoncePrefix);
    FreeConcat(a, b, BearerPrefix);
    FreeConcat(a, b, LocationPrefix);
  }

  /** The status line of the unit test's reply: a '/' followed by "1.1" and two escaped line ends. */
  lemma StatusLineUnmatched()
    ensures Unmatched("HTTP/1.1\\r\\n")
  {
    var c0, c1, c2, c3 := ['H'] + "TTP", ['/'] + "1.1", ['\\'] + "r", ['\\'] + "n";
    ChunkUnmatched('H', "TTP", 0);
    ChunkUnmatched('/', "1.1", 1);
    ChunkUnmatched('\\', "r", 1);
    ChunkUnmatched('\\', "n", 1);
    UnmatchedConcat(c0, c1);
    UnmatchedConcat(c0 + c1, c2);
    UnmatchedConcat(c0 + c1 + c2, c3);
    UnmatchedSame(c0 + c1 + c2 + c3, "HTTP/1.1\\r\\n");
  }

  /** A header of the unit test's request: an 'A' followed by 'c' and a '/' followed by '*'. */
  lemma AcceptHeaderUnmatched()
    ensures Unmatched("Accept: */*")
  {
    var c0, c1 := ['A'] + "ccept: *", ['/'] + "*";
    ChunkUnmatched('A', "ccept: *", 1);
    ChunkUnmatched('/', "*", 1);
    UnmatchedConcat(c0, c1);
    UnmatchedSame(c0 + c1, "Accept: */*");
  }

  /**
   * The country of the unit test's billing address: an 'A' directly
   * followed by a backslash, whose freedom rests on the text after it.
   */
  lemma CountryUnmatched()
    ensures Unmatched("\\\"CA\\\"},")
  {
    var c0, r := ['\\'] + "\"C", ['\\'] + "\"},";
    ChunkUnmatched('\\', "\"},", 2);
    HeadFree('A', r, NoncePrefix, 0);
    HeadFree('A', r, BearerPrefix, 1);
    HeadFree('A', r, LocationPrefix, 0);
    ChunkUnmatched('\\', "\"C", 2);
    UnmatchedConcat(c0, ['A'] + r);
    UnmatchedSame(c0 + (['A'] + r), "\\\"CA\\\"},");
  }

  // ---------------------------------------------------------------------
  // Scrubbing twice is not scrubbing once
  // ---------------------------------------------------------------------

  /**
   * The nonce window takes any 30 characters, so in a scrubbed transcript
   * the marker and the 20 characters after it form a new window: a second
   * scrub removes text the first one kept.
   */
  lemma ScrubNotIdempotent(tokenSize: nat)
    ensures var s := NoncePrefix + seq(30, _ => 'x') + seq(20, _ => 'y');
      Scrub(Scrub(s, tokenSize), tokenSize) != Scrub(s, tokenSize)
  {
    var np, bp, lp := NoncePattern, BearerPattern(tokenSize), LocationPattern;
    var w, v := seq(30, _ => 'x'), seq(20, _ => 'y');
    assert np.prefix[0] == '\\' && bp.prefix[0] == 'A' && lp.prefix[0] == '/';
    assert '\\' !in v && 'A' !in v && '/' !in v;
    LeadFree(v, np.prefix);
    LeadFree(v, bp.prefix);
    LeadFree(v, lp.prefix);
    BearerFree();
    LocationFree();
    // once: the nonce window is replaced
    SingleNonce(w, v, np, bp, lp);
    var once := NoncePrefix + Filtered + v;
    // twice: the marker and v now fill a 30-character nonce window
    Assoc(Filtered, v);
    assert once == NoncePrefix + (Filtered + v) + [];
    SingleNonce(Filtered + v, [], np, bp, lp);
    assert |NoncePrefix + Filtered + []| < |once|;
  }

  /** A text that is one nonce match and match-free text after it loses the match's window. */
  lemma SingleNonce(w: string, v: string, np: Pattern, bp: Pattern, lp: Pattern)
    requires np.prefix != [] && bp.prefix != [] && lp.prefix != []
    requires |w| == np.width && forall j :: 0 <= j < |w| ==> np.cls.Has(w[j])
    requires Clear(v, np, bp, lp)
    requires Free(np.prefix, bp.prefix) && Free(Filtered, bp.prefix)
    requires Free(np.prefix, lp.prefix) && Free(Filtered, lp.prefix)
    ensures Gsub(Gsub(Gsub(np.prefix + w + v, np), bp), lp) == np.prefix + Filtered + v
  {
    var once := np.prefix + Filtered + v;
    assert Gsub(np.prefix + w + v, np) == once by {
      Step([], w, v, np);
      assert [] + np.prefix == np.prefix;
    }
    FreeConcat(np.prefix, Filtered, bp.prefix);
    FreeConcat(np.prefix + Filtered, v, bp.prefix);
    FreeConcat(np.prefix, Filtered, lp.prefix);
    FreeConcat(np.prefix + Filtered, v, lp.prefix);
  }
}
