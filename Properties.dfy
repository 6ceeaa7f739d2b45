/**
 * What `parseUri` promises, stated about `Parse`: the traversal gate, the
 * normalisation and pagination of the URI, the order in which strategies
 * are tried (against an explicit list of strategies, the reference
 * definition), and the shape of every record it returns.
 */
module ParseProperties {
  import opened Wrappers
  import opened Text
  import opened Patterns
  import opened Tags
  import opened PageInfos
  import opened UriParser

  // ---------------------------------------------------------------------
  // Reference definition: an ordered list of strategies, first match wins

  datatype Strategy =
    | PageStrategy
    | PostStrategy(blogKey: string)
    | TagStrategy(blogKey: string)
    | CategoryStrategy(blogKey: string)

  function Run(site: Site, s: Strategy, uri: string, base: PageInfo): Step {
    match s
    case PageStrategy => TryPage(site, uri, base)
    case PostStrategy(b) => TryPost(site, b, uri, base)
    case TagStrategy(b) => TryTag(site, b, uri, base)
    case CategoryStrategy(b) => TryCategory(site, b, uri, base)
  }

  /** One post strategy per blog, in the blogs' order. */
  function PostStrategies(blogKeys: seq<string>): (r: seq<Strategy>)
    ensures |r| == |blogKeys|
    ensures forall i :: 0 <= i < |r| ==> r[i] == PostStrategy(blogKeys[i])
  {
    seq(|blogKeys|, i requires 0 <= i < |blogKeys| => PostStrategy(blogKeys[i]))
  }

  /** For each blog in order, its tag strategy and then its category strategy. */
  function ListingStrategies(blogKeys: seq<string>): (r: seq<Strategy>)
    ensures |r| == 2 * |blogKeys|
  {
    if blogKeys == [] then []
    else [TagStrategy(blogKeys[0]), CategoryStrategy(blogKeys[0])] + ListingStrategies(blogKeys[1..])
  }

  /** Blog `i`'s tag strategy sits at `2 i`, its category strategy right after it. */
  lemma {:induction false} ListingStrategiesAt(blogKeys: seq<string>, i: nat)
    requires i < |blogKeys|
    ensures ListingStrategies(blogKeys)[2 * i] == TagStrategy(blogKeys[i])
    ensures ListingStrategies(blogKeys)[2 * i + 1] == CategoryStrategy(blogKeys[i])
  {
    if i > 0 {
      ListingStrategiesAt(blogKeys[1..], i - 1);
    }
  }

  /** The order of lines 50-78: the page, every blog's post, then every blog's listings. */
  function Strategies(blogKeys: seq<string>): seq<Strategy> {
    [PageStrategy] + PostStrategies(blogKeys) + ListingStrategies(blogKeys)
  }

  /** The result of the first strategy that does not miss; `Miss` if all do. */
  function FirstHit(site: Site, strategies: seq<Strategy>, uri: string, base: PageInfo): Step
    decreases |strategies|
  {
    if strategies == [] then Miss
    else
      var step := Run(site, strategies[0], uri, base);
      if step.Miss? then FirstHit(site, strategies[1..], uri, base) else step
  }

  /** The first strategy that does not miss decides. */
  lemma {:induction false} FirstHitAt(site: Site, strategies: seq<Strategy>, uri: string, base: PageInfo, k: nat)
    requires k < |strategies|
    requires forall j :: 0 <= j < k ==> Run(site, strategies[j], uri, base).Miss?
    requires !Run(site, strategies[k], uri, base).Miss?
    ensures FirstHit(site, strategies, uri, base) == Run(site, strategies[k], uri, base)
  {
    if k > 0 {
      assert Run(site, strategies[0], uri, base).Miss?;
      FirstHitAt(site, strategies[1..], uri, base, k - 1);
    }
  }

  /** The list misses exactly when every strategy in it misses. */
  lemma {:induction false} FirstHitMiss(site: Site, strategies: seq<Strategy>, uri: string, base: PageInfo)
    ensures FirstHit(site, strategies, uri, base).Miss? <==>
            forall k :: 0 <= k < |strategies| ==> Run(site, strategies[k], uri, base).Miss?
  {
    if strategies != [] {
      FirstHitMiss(site, strategies[1..], uri, base);
      assert forall k :: 1 <= k < |strategies| ==> strategies[k] == strategies[1..][k - 1];
    }
  }

  lemma {:induction false} FirstHitConcat(site: Site, a: seq<Strategy>, b: seq<Strategy>, uri: string, base: PageInfo)
    ensures FirstHit(site, a + b, uri, base) ==
            var r := FirstHit(site, a, uri, base); if r.Miss? then FirstHit(site, b, uri, base) else r
  {
    if a == [] {
      assert a + b == b;
    } else {
      assert (a + b)[1..] == a[1..] + b;
      FirstHitConcat(site, a[1..], b, uri, base);
    }
  }

  lemma {:induction false} PostsFromIsFirstHit(site: Site, blogKeys: seq<string>, uri: string, base: PageInfo)
    ensures PostsFrom(site, blogKeys, uri, base) == FirstHit(site, PostStrategies(blogKeys), uri, base)
  {
    if blogKeys != [] {
      PostsFromIsFirstHit(site, blogKeys[1..], uri, base);
      assert PostStrategies(blogKeys)[1..] == PostStrategies(blogKeys[1..]);
    }
  }

  lemma {:induction false} ListingsFromIsFirstHit(site: Site, blogKeys: seq<string>, uri: string, base: PageInfo)
    ensures ListingsFrom(site, blogKeys, uri, base) == FirstHit(site, ListingStrategies(blogKeys), uri, base)
  {
    if blogKeys != [] {
      ListingsFromIsFirstHit(site, blogKeys[1..], uri, base);
      var s := ListingStrategies(blogKeys);
      assert s[1..][1..] == ListingStrategies(blogKeys[1..]);
    }
  }

  /** `Dispatch`, as the PHP code nests it, is the flat first-match over `Strategies`. */
  lemma DispatchIsFirstHit(site: Site, uri: string, base: PageInfo)
    ensures Dispatch(site, uri, base) == FirstHit(site, Strategies(site.blogKeys), uri, base)
  {
    var posts := PostStrategies(site.blogKeys);
    var listings := ListingStrategies(site.blogKeys);
    FirstHitConcat(site, [PageStrategy] + posts, listings, uri, base);
    FirstHitConcat(site, [PageStrategy], posts, uri, base);
    PostsFromIsFirstHit(site, site.blogKeys, uri, base);
    ListingsFromIsFirstHit(site, site.blogKeys, uri, base);
  }

  // ---------------------------------------------------------------------
  // The traversal gate (lines 22-25)

  /** Only tag strategies throw, and only the tag-order exception. */
  lemma OnlyTagsThrow(site: Site, s: Strategy, uri: string, base: PageInfo)
    requires Run(site, s, uri, base).Abort?
    ensures s.TagStrategy? && Run(site, s, uri, base).error == TagOrder
  {
  }

  lemma {:induction false} DispatchNeverTraversal(site: Site, uri: string, base: PageInfo)
    ensures Dispatch(site, uri, base) != Abort(Traversal)
  {
    var strategies := Strategies(site.blogKeys);
    DispatchIsFirstHit(site, uri, base);
    FirstHitMiss(site, strategies, uri, base);
    if !FirstHit(site, strategies, uri, base).Miss? {
      var k := FirstNonMiss(site, strategies, uri, base);
      FirstHitAt(site, strategies, uri, base, k);
      if Run(site, strategies[k], uri, base).Abort? {
        OnlyTagsThrow(site, strategies[k], uri, base);
      }
    }
  }

  /** Index of the first strategy that does not miss. */
  function FirstNonMiss(site: Site, strategies: seq<Strategy>, uri: string, base: PageInfo): (k: nat)
    requires exists k :: 0 <= k < |strategies| && !Run(site, strategies[k], uri, base).Miss?
    ensures k < |strategies| && !Run(site, strategies[k], uri, base).Miss?
    ensures forall j :: 0 <= j < k ==> Run(site, strategies[j], uri, base).Miss?
    decreases |strategies|
  {
    if !Run(site, strategies[0], uri, base).Miss? then 0
    else
      assert forall k :: 1 <= k < |strategies| ==> strategies[k] == strategies[1..][k - 1];
      1 + FirstNonMiss(site, strategies[1..], uri, base)
  }

  /** `parseUri` throws the 404 exception exactly when the URI contains `..`. */
  lemma TraversalExact(site: Site, raw: string)
    ensures Parse(site, raw) == Failed(Traversal) <==> HasParentToken(raw)
  {
    if !HasParentToken(raw) {
      var (uri, page) := Normalise(raw);
      DispatchNeverTraversal(site, uri, Initial(uri, page));
    }
  }

  /** The gate comes first: `..` anywhere fails whatever the site. */
  lemma TraversalFirst(site: Site, a: string, b: string)
    ensures Parse(site, a + ".." + b) == Failed(Traversal)
  {
    ParentTokenAnywhere(a, b);
  }

  // ---------------------------------------------------------------------
  // Normalisation and pagination (lines 27-37)

  /** An empty URI, or one made only of slashes, is the index page, page 1. */
  lemma NormaliseIndex(raw: string)
    requires AllAre(raw, '/')
    ensures Normalise(raw) == (IndexPageName, 1)
  {
    assert raw == raw + [] + [];
    TrimOfPadded(raw, [], [], '/');
    PaginateWithoutSlash(IndexPageName);
  }

  /**
   * Slashes at either end are dropped, and a final `/<digits>` segment is
   * removed and read as the page number.
   */
  lemma NormalisePaginated(lead: string, prefix: string, digits: string, trail: string)
    requires AllAre(lead, '/') && AllAre(trail, '/')
    requires prefix != [] && Unpadded(prefix, '/')
    requires |digits| > 0 && AllDigits(digits)
    ensures Normalise(lead + prefix + "/" + digits + trail) == (prefix, IntVal(digits))
  {
    var core := prefix + "/" + digits;
    assert lead + prefix + "/" + digits + trail == lead + core + trail;
    assert core[|core| - 1] == digits[|digits| - 1];
    TrimOfPadded(lead, core, trail, '/');
    PaginateDigitSegment(prefix, digits, "");
    assert core + "" == core;
  }

  /** A trimmed URI without a final digit segment keeps page 1 and is used as it is. */
  lemma NormaliseUnpaginated(raw: string)
    requires forall p: nat :: !PageSuffixAt(TrimmedUri(raw), p)
    ensures Normalise(raw) == (TrimmedUri(raw), 1)
  {
    PaginateNoMatch(TrimmedUri(raw));
  }

  /** The normalised URI is a non-empty piece of the request (or the index name) without `..`. */
  lemma NormalisedUri(raw: string)
    requires !HasParentToken(raw)
    ensures Normalise(raw).0 != []
    ensures Normalise(raw).0[0] != '/'
    ensures !HasParentToken(Normalise(raw).0)
  {
    var t := TrimmedUri(raw);
    var i, j := TrimIsSlice(raw, '/');
    if Trim(raw, '/') != [] && HasParentToken(t) {
      ParentTokenInSlice(raw, i, j);
    }
    assert !HasParentToken(IndexPageName);
    var m := MatchPageSuffix(t);
    if m.Some? {
      PageSuffixExact(t, m.value.start);
      assert t[m.value.start] == '/';
      if HasParentToken(t[..m.value.start]) {
        ParentTokenInSlice(t, 0, m.value.start);
      }
    }
  }

  // ---------------------------------------------------------------------
  // Dispatch (lines 50-81)

  /** Outside the traversal gate, `Parse` returns what the first strategy in `Strategies` yields. */
  lemma ParseIsFirstMatch(site: Site, raw: string)
    requires !HasParentToken(raw)
    ensures var (uri, page) := Normalise(raw);
            Parse(site, raw) == Returned(FirstHit(site, Strategies(site.blogKeys), uri, Initial(uri, page)))
  {
    var (uri, page) := Normalise(raw);
    DispatchIsFirstHit(site, uri, Initial(uri, page));
  }

  /** `null` exactly when no strategy matches and none throws. */
  lemma NotFoundExact(site: Site, raw: string)
    ensures var (uri, page) := Normalise(raw);
            var strategies := Strategies(site.blogKeys);
            Parse(site, raw) == NotFound <==>
              !HasParentToken(raw) &&
              forall k :: 0 <= k < |strategies| ==> Run(site, strategies[k], uri, Initial(uri, page)).Miss?
  {
    if !HasParentToken(raw) {
      var (uri, page) := Normalise(raw);
      ParseIsFirstMatch(site, raw);
      FirstHitMiss(site, Strategies(site.blogKeys), uri, Initial(uri, page));
    }
  }

  /** A strategy that matches or throws wins over every later one. */
  lemma FirstMatchWins(site: Site, raw: string, k: nat)
    requires !HasParentToken(raw)
    requires var (uri, page) := Normalise(raw);
             var strategies := Strategies(site.blogKeys);
             k < |strategies| &&
             (forall j :: 0 <= j < k ==> Run(site, strategies[j], uri, Initial(uri, page)).Miss?) &&
             !Run(site, strategies[k], uri, Initial(uri, page)).Miss?
    ensures var (uri, page) := Normalise(raw);
            Parse(site, raw) == Returned(Run(site, Strategies(site.blogKeys)[k], uri, Initial(uri, page)))
  {
    var (uri, page) := Normalise(raw);
    ParseIsFirstMatch(site, raw);
    FirstHitAt(site, Strategies(site.blogKeys), uri, Initial(uri, page), k);
  }

  /** Where each blog's strategies sit in `Strategies`. */
  lemma StrategiesAt(blogKeys: seq<string>, i: nat)
    requires i < |blogKeys|
    ensures |Strategies(blogKeys)| == 1 + 3 * |blogKeys|
    ensures Strategies(blogKeys)[0] == PageStrategy
    ensures Strategies(blogKeys)[1 + i] == PostStrategy(blogKeys[i])
    ensures Strategies(blogKeys)[1 + |blogKeys| + 2 * i] == TagStrategy(blogKeys[i])
    ensures Strategies(blogKeys)[1 + |blogKeys| + 2 * i + 1] == CategoryStrategy(blogKeys[i])
  {
    ListingStrategiesAt(blogKeys, i);
  }

  /** Every strategy before blog `i`'s listings misses when the page, every post and the earlier listings do. */
  lemma MissesBeforeListing(site: Site, uri: string, base: PageInfo, i: nat)
    requires i <= |site.blogKeys|
    requires TryPage(site, uri, base).Miss?
    requires forall j :: 0 <= j < |site.blogKeys| ==> TryPost(site, site.blogKeys[j], uri, base).Miss?
    requires forall j :: 0 <= j < i ==>
               TryTag(site, site.blogKeys[j], uri, base).Miss? && TryCategory(site, site.blogKeys[j], uri, base).Miss?
    ensures var strategies := Strategies(site.blogKeys);
            forall k :: 0 <= k < 1 + |site.blogKeys| + 2 * i ==> Run(site, strategies[k], uri, base).Miss?
  {
    var b := site.blogKeys;
    var strategies := Strategies(b);
    forall k | 0 <= k < 1 + |b| + 2 * i
      ensures Run(site, strategies[k], uri, base).Miss?
    {
      if k == 0 {
        assert strategies[0] == PageStrategy;
      } else if k <= |b| {
        StrategiesAt(b, k - 1);
      } else {
        var j := (k - 1 - |b|) / 2;
        StrategiesAt(b, j);
        assert k == 1 + |b| + 2 * j || k == 1 + |b| + 2 * j + 1;
      }
    }
  }

  /** Lines 59-65: the first blog whose post pattern matches gives the result. */
  lemma PostOrder(site: Site, raw: string, i: nat)
    requires !HasParentToken(raw)
    requires i < |site.blogKeys|
    requires var (uri, page) := Normalise(raw);
             && TryPage(site, uri, Initial(uri, page)).Miss?
             && (forall j :: 0 <= j < i ==> TryPost(site, site.blogKeys[j], uri, Initial(uri, page)).Miss?)
             && TryPost(site, site.blogKeys[i], uri, Initial(uri, page)).Hit?
    ensures var (uri, page) := Normalise(raw);
            Parse(site, raw) == Found(TryPost(site, site.blogKeys[i], uri, Initial(uri, page)).info)
  {
    var (uri, page) := Normalise(raw);
    var b := site.blogKeys;
    var strategies := Strategies(b);
    StrategiesAt(b, i);
    forall k | 0 <= k < 1 + i ensures Run(site, strategies[k], uri, Initial(uri, page)).Miss? {
      if k > 0 {
        StrategiesAt(b, k - 1);
      }
    }
    FirstMatchWins(site, raw, 1 + i);
  }

  /** Blog `i`'s tag strategy is reached once everything before it has missed. */
  lemma TagStrategyReached(site: Site, uri: string, base: PageInfo, i: nat)
    requires i < |site.blogKeys|
    requires TryPage(site, uri, base).Miss?
    requires forall j :: 0 <= j < |site.blogKeys| ==> TryPost(site, site.blogKeys[j], uri, base).Miss?
    requires forall j :: 0 <= j < i ==>
               TryTag(site, site.blogKeys[j], uri, base).Miss? && TryCategory(site, site.blogKeys[j], uri, base).Miss?
    requires !TryTag(site, site.blogKeys[i], uri, base).Miss?
    ensures FirstHit(site, Strategies(site.blogKeys), uri, base) == TryTag(site, site.blogKeys[i], uri, base)
  {
    var k := 1 + |site.blogKeys| + 2 * i;
    StrategiesAt(site.blogKeys, i);
    MissesBeforeListing(site, uri, base, i);
    FirstHitAt(site, Strategies(site.blogKeys), uri, base, k);
  }

  /** Blog `i`'s category strategy is reached once everything before it, its tag strategy included, has missed. */
  lemma CategoryStrategyReached(site: Site, uri: string, base: PageInfo, i: nat)
    requires i < |site.blogKeys|
    requires TryPage(site, uri, base).Miss?
    requires forall j :: 0 <= j < |site.blogKeys| ==> TryPost(site, site.blogKeys[j], uri, base).Miss?
    requires forall j :: 0 <= j < i + 1 ==>
               TryTag(site, site.blogKeys[j], uri, base).Miss?
    requires forall j :: 0 <= j < i ==>
               TryCategory(site, site.blogKeys[j], uri, base).Miss?
    requires !TryCategory(site, site.blogKeys[i], uri, base).Miss?
    ensures FirstHit(site, Strategies(site.blogKeys), uri, base) == TryCategory(site, site.blogKeys[i], uri, base)
  {
    var k := 1 + |site.blogKeys| + 2 * i;
    var strategies := Strategies(site.blogKeys);
    StrategiesAt(site.blogKeys, i);
    MissesBeforeListing(site, uri, base, i);
    assert Run(site, strategies[k], uri, base).Miss?;
    FirstHitAt(site, strategies, uri, base, k + 1);
  }

  lemma ListingOrderAt(site: Site, uri: string, base: PageInfo, i: nat)
    requires i < |site.blogKeys|
    requires TryPage(site, uri, base).Miss?
    requires forall j :: 0 <= j < |site.blogKeys| ==> TryPost(site, site.blogKeys[j], uri, base).Miss?
    requires forall j :: 0 <= j < i ==>
               TryTag(site, site.blogKeys[j], uri, base).Miss? && TryCategory(site, site.blogKeys[j], uri, base).Miss?
    ensures var tag := TryTag(site, site.blogKeys[i], uri, base);
            var category := TryCategory(site, site.blogKeys[i], uri, base);
            var first := FirstHit(site, Strategies(site.blogKeys), uri, base);
            && (!tag.Miss? ==> first == tag)
            && (tag.Miss? && !category.Miss? ==> first == category)
  {
    if !TryTag(site, site.blogKeys[i], uri, base).Miss? {
      TagStrategyReached(site, uri, base, i);
    } else if !TryCategory(site, site.blogKeys[i], uri, base).Miss? {
      CategoryStrategyReached(site, uri, base, i);
    }
  }

  /**
   * Lines 68-78: once the page and every post have missed, blogs are taken in
   * order, its tag listing before its category listing; a tag-order exception
   * ends the parse there.
   */
  lemma ListingOrder(site: Site, raw: string, i: nat)
    requires !HasParentToken(raw)
    requires i < |site.blogKeys|
    requires var (uri, page) := Normalise(raw);
             var base := Initial(uri, page);
             && TryPage(site, uri, base).Miss?
             && (forall j :: 0 <= j < |site.blogKeys| ==> TryPost(site, site.blogKeys[j], uri, base).Miss?)
             && (forall j :: 0 <= j < i ==>
                   TryTag(site, site.blogKeys[j], uri, base).Miss? && TryCategory(site, site.blogKeys[j], uri, base).Miss?)
    ensures var (uri, page) := Normalise(raw);
            var base := Initial(uri, page);
            var tag := TryTag(site, site.blogKeys[i], uri, base);
            var category := TryCategory(site, site.blogKeys[i], uri, base);
            && (!tag.Miss? ==> Parse(site, raw) == Returned(tag))
            && (tag.Miss? && !category.Miss? ==> Parse(site, raw) == Returned(category))
  {
    var (uri, page) := Normalise(raw);
    ParseIsFirstMatch(site, raw);
    ListingOrderAt(site, uri, Initial(uri, page), i);
  }

  /** An existing page file wins over every post, tag and category pattern. */
  lemma PageWins(site: Site, raw: string)
    requires !HasParentToken(raw)
    requires site.pagesDir.Some?
    requires site.pagesDir.value + StripExtension(Normalise(raw).0) + ".html" in site.files
    ensures var (uri, page) := Normalise(raw);
            Parse(site, raw) ==
              Found(Initial(uri, page).(path := Some(site.pagesDir.value + StripExtension(uri) + ".html"),
                                       wasPathChecked := true))
  {
  }

  // ---------------------------------------------------------------------
  // What every returned record looks like

  /** Facts common to every record a post, tag or category strategy returns. */
  ghost predicate ListedResult(site: Site, blogKeys: seq<string>, uri: string, base: PageInfo, info: PageInfo) {
    && info.uri == base.uri && info.page == base.page
    && !info.wasPathChecked
    && info.blogKey.Some? && info.blogKey.value in blogKeys
    && var b := info.blogKey.value;
    && (info.kind == Post ==>
          && site.postsDir.Some? && site.postPattern(b, uri).Some?
          && var pathInfo := site.pathInfo(b, site.postPattern(b, uri).value);
          && info.date == Some(Date(pathInfo.year, pathInfo.month, pathInfo.day))
          && info.path == Some(pathInfo.path)
          && info.key == NoKey)
    && (info.kind == Tag ==>
          && site.pagesDir.Some? && site.tagPattern(b, uri).Some?
          && info.path == Some(site.pagesDir.value + BlogPrefix(b) + TagPageName + ".html")
          && TagKey(site.tagPattern(b, uri).value) == Some(info.key)
          && info.date == None)
    && (info.kind == Category ==>
          && site.pagesDir.Some? && site.categoryPattern(b, uri).Some?
          && info.path == Some(site.pagesDir.value + BlogPrefix(b) + CategoryPageName + ".html")
          && info.key == Single(site.categoryPattern(b, uri).value)
          && info.date == None)
    && info.kind != Regular
  }

  lemma {:induction false} PostsFromShape(site: Site, blogKeys: seq<string>, uri: string, base: PageInfo)
    requires base == Initial(base.uri, base.page)
    ensures !PostsFrom(site, blogKeys, uri, base).Abort?
    ensures PostsFrom(site, blogKeys, uri, base).Hit? ==>
            var info := PostsFrom(site, blogKeys, uri, base).info;
            ListedResult(site, blogKeys, uri, base, info) && info.kind == Post
  {
    if blogKeys != [] {
      PostsFromShape(site, blogKeys[1..], uri, base);
    }
  }

  lemma {:induction false} ListingsFromShape(site: Site, blogKeys: seq<string>, uri: string, base: PageInfo)
    requires base == Initial(base.uri, base.page)
    ensures ListingsFrom(site, blogKeys, uri, base).Hit? ==>
            var info := ListingsFrom(site, blogKeys, uri, base).info;
            ListedResult(site, blogKeys, uri, base, info) && (info.kind == Tag || info.kind == Category)
  {
    if blogKeys != [] {
      ListingsFromShape(site, blogKeys[1..], uri, base);
    }
  }

  /** Every returned record carries the normalised URI and page number (lines 39-41). */
  lemma FoundKeepsUriAndPage(site: Site, raw: string, info: PageInfo)
    requires Parse(site, raw) == Found(info)
    ensures (info.uri, info.page) == Normalise(raw)
  {
    var (uri, page) := Normalise(raw);
    PostsFromShape(site, site.blogKeys, uri, Initial(uri, page));
    ListingsFromShape(site, site.blogKeys, uri, Initial(uri, page));
  }

  /** A regular page is the only result whose path was checked; it keeps every other default. */
  lemma FoundRegular(site: Site, raw: string, info: PageInfo)
    requires Parse(site, raw) == Found(info)
    ensures info.kind == Regular <==> info.wasPathChecked
    ensures info.kind == Regular ==>
              && site.pagesDir.Some?
              && info.path == Some(site.pagesDir.value + StripExtension(info.uri) + ".html")
              && info.path.value in site.files
              && info.blogKey == None && info.key == NoKey && info.date == None
  {
    var (uri, page) := Normalise(raw);
    PostsFromShape(site, site.blogKeys, uri, Initial(uri, page));
    ListingsFromShape(site, site.blogKeys, uri, Initial(uri, page));
  }

  /** Post, tag and category records name one of the site's blogs and come from its patterns. */
  lemma FoundListed(site: Site, raw: string, info: PageInfo)
    requires Parse(site, raw) == Found(info)
    requires info.kind != Regular
    ensures ListedResult(site, site.blogKeys, Normalise(raw).0, Initial(Normalise(raw).0, Normalise(raw).1), info)
  {
    var (uri, page) := Normalise(raw);
    PostsFromShape(site, site.blogKeys, uri, Initial(uri, page));
    ListingsFromShape(site, site.blogKeys, uri, Initial(uri, page));
  }

  /** A multi-tag key in a returned record is ascending and has at least two tags. */
  lemma FoundTagKey(site: Site, raw: string, info: PageInfo)
    requires Parse(site, raw) == Found(info)
    requires info.kind == Tag && info.key.Multi?
    ensures |info.key.names| > 1 && Ascending(info.key.names)
  {
    FoundListed(site, raw, info);
    var b := info.blogKey.value;
    var tags := Split(Trim(site.tagPattern(b, Normalise(raw).0).value, '/'), '/');
    assert |Sort(tags)| == |multiset(Sort(tags))| == |multiset(tags)| == |tags|;
  }

  /** Listing pages of the default blog sit directly in the pages directory, others under the blog's name. */
  lemma BlogPrefixExact(blogKey: string)
    ensures BlogPrefix(blogKey) == "" <==> blogKey == DefaultBlogKey
    ensures blogKey != DefaultBlogKey ==> BlogPrefix(blogKey) == blogKey + "/"
  {
  }
}
