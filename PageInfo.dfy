/**
 * The page-info record that `UriParser::parseUri` builds (UriParser.php
 * lines 39-48): as a value, `PageInfo`, and as the PHP array that the
 * strategies receive by reference and overwrite in place, `PageRecord`.
 */
module PageInfos {
  import opened Wrappers
  import opened Tags

  /** `IPage::TYPE_REGULAR`, `TYPE_POST`, `TYPE_TAG`, `TYPE_CATEGORY`. */
  datatype PageType = Regular | Post | Tag | Category

  /** A post's calendar date; `mktime(0, 0, 0, month, day, year)` without the clock. */
  datatype Date = Date(year: int, month: int, day: int)

  datatype PageInfo = PageInfo(
    uri: string,
    page: nat,
    kind: PageType,
    blogKey: Option<string>,
    key: Key,
    date: Option<Date>,
    path: Option<string>,
    wasPathChecked: bool)

  /** The record as `parseUri` first fills it in. */
  function Initial(uri: string, page: nat): PageInfo {
    PageInfo(uri, page, Regular, None, NoKey, None, None, false)
  }

  /** The `$pageInfo` array, shared by reference with the strategies. */
  class PageRecord {
    var uri: string
    var page: nat
    var kind: PageType
    var blogKey: Option<string>
    var key: Key
    var date: Option<Date>
    var path: Option<string>
    var wasPathChecked: bool

    /** A copy of the array's current contents, as PHP returns it. */
    function Value(): PageInfo
      reads this
    {
      PageInfo(uri, page, kind, blogKey, key, date, path, wasPathChecked)
    }

    constructor (uri: string, page: nat)
      ensures Value() == Initial(uri, page)
    {
      this.uri := uri;
      this.page := page;
      kind := Regular;
      blogKey := None;
      key := NoKey;
      date := None;
      path := None;
      wasPathChecked := false;
    }
  }
}
