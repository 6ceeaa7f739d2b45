/**
 * `UriParser::parseUri`: from a relative request URI to a page-info record,
 * `null`, or an exception. The methods follow the PHP code step by step,
 * mutating one `PageRecord`; each is proved against the pure function of the
 * same name without the `Parse...Uri` wording (`TryPage`, `TryPost`, ...),
 * and `ParseUri` against `Parse`.
 */
module UriParser {
  import opened Wrappers
  import opened Text
  import opened Patterns
  import opened Tags
  import opened PageInfos

  /** `PieCrustDefaults::INDEX_PAGE_NAME` and friends. */
  const IndexPageName: string := "_index"
  const TagPageName: string := "_tag"
  const CategoryPageName: string := "_category"
  const DefaultBlogKey: string := "blog"

  /** The named captures of a successful `preg_match`. */
  type Captures = map<string, string>

  /** What `FileSystem::getPathInfo` reports for a matched post. */
  datatype PathInfo = PathInfo(year: int, month: int, day: int, path: string)

  /**
   * Everything `parseUri` reads from the `IPieCrust` object and from the
   * collaborators it calls. A pattern field stands for building the blog's
   * pattern from its configured URL format with `UriBuilder` and running
   * `preg_match` on the URI; the tag and category matchers yield the `tag`
   * and `cat` capture of a successful match.
   */
  datatype Site = Site(
    pagesDir: Option<string>,
    postsDir: Option<string>,
    blogKeys: seq<string>,
    files: set<string>,
    postPattern: (string, string) -> Option<Captures>,
    tagPattern: (string, string) -> Option<string>,
    categoryPattern: (string, string) -> Option<string>,
    pathInfo: (string, Captures) -> PathInfo)

  /** The two exceptions `parseUri` can raise. */
  datatype ParseError = Traversal | TagOrder

  /** What one strategy did: filled in the record, did not match, or threw. */
  datatype Step = Hit(info: PageInfo) | Miss | Abort(error: ParseError)

  /** What `parseUri` returns: the record, `null`, or an exception. */
  datatype Outcome = Found(info: PageInfo) | NotFound | Failed(error: ParseError)

  // ---------------------------------------------------------------------
  // Normalisation and pagination (lines 27-37)

  /** The trimmed URI, or the index page name when nothing is left. */
  function TrimmedUri(raw: string): string {
    var t := Trim(raw, '/');
    if t == [] then IndexPageName else t
  }

  /** The URI and page number that every strategy sees. */
  function Normalise(raw: string): (string, nat) {
    Paginate(TrimmedUri(raw))
  }

  // ---------------------------------------------------------------------
  // The strategies, as functions of the record they start from

  /** Lines 84-108. */
  function TryPage(site: Site, uri: string, base: PageInfo): Step {
    if site.pagesDir.None? then Miss
    else
      var path := site.pagesDir.value + StripExtension(uri) + ".html";
      if path in site.files then Hit(base.(path := Some(path), wasPathChecked := true))
      else Miss
  }

  /** Lines 110-131. */
  function TryPost(site: Site, blogKey: string, uri: string, base: PageInfo): Step {
    if site.postsDir.None? then Miss
    else
      match site.postPattern(blogKey, uri)
      case None => Miss
      case Some(captures) =>
        var info := site.pathInfo(blogKey, captures);
        Hit(base.(kind := Post, blogKey := Some(blogKey),
                  date := Some(Date(info.year, info.month, info.day)), path := Some(info.path)))
  }

  /** Lines 143-145 and 182-184: where a blog's listing pages live below the pages directory. */
  function BlogPrefix(blogKey: string): string {
    if blogKey == DefaultBlogKey then "" else blogKey + "/"
  }

  /** Lines 133-171. */
  function TryTag(site: Site, blogKey: string, uri: string, base: PageInfo): Step {
    if site.pagesDir.None? then Miss
    else
      match site.tagPattern(blogKey, uri)
      case None => Miss
      case Some(raw) =>
        match TagKey(raw)
        case None => Abort(TagOrder)
        case Some(key) =>
          Hit(base.(kind := Tag, blogKey := Some(blogKey), key := key,
                    path := Some(site.pagesDir.value + BlogPrefix(blogKey) + TagPageName + ".html")))
  }

  /** Lines 173-195. */
  function TryCategory(site: Site, blogKey: string, uri: string, base: PageInfo): Step {
    if site.pagesDir.None? then Miss
    else
      match site.categoryPattern(blogKey, uri)
      case None => Miss
      case Some(cat) =>
        Hit(base.(kind := Category, blogKey := Some(blogKey), key := Single(cat),
                  path := Some(site.pagesDir.value + BlogPrefix(blogKey) + CategoryPageName + ".html")))
  }

  /** Lines 59-65: the first blog, in order, whose post pattern matches. */
  function PostsFrom(site: Site, blogKeys: seq<string>, uri: string, base: PageInfo): Step
    decreases |blogKeys|
  {
    if blogKeys == [] then Miss
    else
      var step := TryPost(site, blogKeys[0], uri, base);
      if step.Miss? then PostsFrom(site, blogKeys[1..], uri, base) else step
  }

  /** Lines 68-78: for each blog in order, its tag listing and then its category listing. */
  function ListingsFrom(site: Site, blogKeys: seq<string>, uri: string, base: PageInfo): Step
    decreases |blogKeys|
  {
    if blogKeys == [] then Miss
    else
      var tag := TryTag(site, blogKeys[0], uri, base);
      if !tag.Miss? then tag
      else
        var category := TryCategory(site, blogKeys[0], uri, base);
        if !category.Miss? then category else ListingsFrom(site, blogKeys[1..], uri, base)
  }

  /** Lines 50-81: page, then posts, then listings; the first that does not miss decides. */
  function Dispatch(site: Site, uri: string, base: PageInfo): Step {
    var page := TryPage(site, uri, base);
    if !page.Miss? then page
    else
      var post := PostsFrom(site, site.blogKeys, uri, base);
      if !post.Miss? then post else ListingsFrom(site, site.blogKeys, uri, base)
  }

  /** A strategy's result as `parseUri` hands it back: returned, `null`, or thrown. */
  function Returned(step: Step): Outcome {
    match step
    case Hit(info) => Found(info)
    case Miss => NotFound
    case Abort(e) => Failed(e)
  }

  /** Lines 20-82 as one function of the site and the request URI. */
  function Parse(site: Site, raw: string): Outcome {
    if HasParentToken(raw) then Failed(Traversal)
    else
      var (uri, page) := Normalise(raw);
      Returned(Dispatch(site, uri, Initial(uri, page)))
  }

  // ---------------------------------------------------------------------
  // The PHP code, step by step

  /** `tryParsePageUri`. */
  method TryParsePageUri(site: Site, uri: string, info: PageRecord) returns (matched: bool)
    modifies info
    ensures TryPage(site, uri, old(info.Value())) == if matched then Hit(info.Value()) else Miss
    ensures !matched ==> info.Value() == old(info.Value())
  {
    if site.pagesDir.None? {
      return false;
    }
    var uriWithoutExtension := uri;
    var m := MatchExtension(uri);
    if m.Some? {
      uriWithoutExtension := uri[..m.value];
    }
    var path := site.pagesDir.value + uriWithoutExtension + ".html";
    if path in site.files {
      info.path := Some(path);
      info.wasPathChecked := true;
      return true;
    }
    return false;
  }

  /** `tryParsePostUri`. */
  method TryParsePostUri(site: Site, blogKey: string, uri: string, info: PageRecord) returns (matched: bool)
    modifies info
    ensures TryPost(site, blogKey, uri, old(info.Value())) == if matched then Hit(info.Value()) else Miss
    ensures !matched ==> info.Value() == old(info.Value())
  {
    if site.postsDir.None? {
      return false;
    }
    var matches := site.postPattern(blogKey, uri);
    if matches.Some? {
      var pathInfo := site.pathInfo(blogKey, matches.value);
      var date := Date(pathInfo.year, pathInfo.month, pathInfo.day);
      info.kind := Post;
      info.blogKey := Some(blogKey);
      info.date := Some(date);
      info.path := Some(pathInfo.path);
      return true;
    }
    return false;
  }

  /** Outcome of `tryParseTagUri`: `true`, `false`, or the exception it throws. */
  datatype TagStatus = Matched | Unmatched | Thrown(error: ParseError)

  /** `tryParseTagUri`. */
  method TryParseTagUri(site: Site, blogKey: string, uri: string, info: PageRecord) returns (status: TagStatus)
    modifies info
    ensures TryTag(site, blogKey, uri, old(info.Value())) ==
            match status
            case Matched => Hit(info.Value())
            case Unmatched => Miss
            case Thrown(e) => Abort(e)
    ensures !status.Matched? ==> info.Value() == old(info.Value())
  {
    if site.pagesDir.None? {
      return Unmatched;
    }
    var matches := site.tagPattern(blogKey, uri);
    if matches.None? {
      return Unmatched;
    }
    var prefix := "";
    if blogKey != DefaultBlogKey {
      prefix := blogKey + "/";
    }
    var path := site.pagesDir.value + prefix + TagPageName + ".html";
    assert prefix == BlogPrefix(blogKey);

    var tags := Split(Trim(matches.value, '/'), '/');
    var key;
    if |tags| > 1 {
      tags := Sort(tags);
      if Join(tags, '/') != matches.value {
        assert TagKey(matches.value) == None;
        return Thrown(TagOrder);
      }
      key := Multi(tags);
    } else {
      key := Single(matches.value);
    }
    assert TagKey(matches.value) == Some(key);

    ghost var before := info.Value();
    info.kind := Tag;
    info.blogKey := Some(blogKey);
    info.key := key;
    info.path := Some(path);
    assert info.Value() == before.(kind := Tag, blogKey := Some(blogKey), key := key, path := Some(path));
    return Matched;
  }

  /** `tryParseCategoryUri`. */
  method TryParseCategoryUri(site: Site, blogKey: string, uri: string, info: PageRecord) returns (matched: bool)
    modifies info
    ensures TryCategory(site, blogKey, uri, old(info.Value())) == if matched then Hit(info.Value()) else Miss
    ensures !matched ==> info.Value() == old(info.Value())
  {
    if site.pagesDir.None? {
      return false;
    }
    var matches := site.categoryPattern(blogKey, uri);
    if matches.Some? {
      var prefix := "";
      if blogKey != DefaultBlogKey {
        prefix := blogKey + "/";
      }
      var path := site.pagesDir.value + prefix + CategoryPageName + ".html";
      info.kind := Category;
      info.blogKey := Some(blogKey);
      info.key := Single(matches.value);
      info.path := Some(path);
      return true;
    }
    return false;
  }

  /** `parseUri`. */
  method ParseUri(site: Site, raw: string) returns (result: Outcome)
    ensures result == Parse(site, raw)
  {
    if HasParentToken(raw) {
      return Failed(Traversal);
    }

    var uri := Trim(raw, '/');
    if uri == "" {
      uri := IndexPageName;
    }
    assert uri == TrimmedUri(raw);

    var pageNumber: nat := 1;
    var m := MatchPageSuffix(uri);
    if m.Some? {
      pageNumber := IntVal(m.value.digits);
      uri := uri[..m.value.start];
    }
    assert (uri, pageNumber) == Normalise(raw);

    var pageInfo := new PageRecord(uri, pageNumber);
    ghost var base := pageInfo.Value();
    assert Parse(site, raw) == Returned(Dispatch(site, uri, base));

    var matched := TryParsePageUri(site, uri, pageInfo);
    if matched {
      return Found(pageInfo.Value());
    }

    var blogKeys := site.blogKeys;

    for i := 0 to |blogKeys|
      invariant pageInfo.Value() == base
      invariant PostsFrom(site, blogKeys, uri, base) == PostsFrom(site, blogKeys[i..], uri, base)
    {
      matched := TryParsePostUri(site, blogKeys[i], uri, pageInfo);
      if matched {
        return Found(pageInfo.Value());
      }
      assert blogKeys[i..][1..] == blogKeys[i + 1..];
    }

    for i := 0 to |blogKeys|
      invariant pageInfo.Value() == base
      invariant ListingsFrom(site, blogKeys, uri, base) == ListingsFrom(site, blogKeys[i..], uri, base)
    {
      var status := TryParseTagUri(site, blogKeys[i], uri, pageInfo);
      if status.Matched? {
        return Found(pageInfo.Value());
      }
      if status.Thrown? {
        return Failed(status.error);
      }
      matched := TryParseCategoryUri(site, blogKeys[i], uri, pageInfo);
      if matched {
        return Found(pageInfo.Value());
      }
      assert blogKeys[i..][1..] == blogKeys[i + 1..];
    }

    return NotFound;
  }
}
