# PieCrust `UriParser` in Dafny

PieCrust is a static-site generator. `UriParser::parseUri` takes a request URI
relative to the site root and decides what it names: a regular page, a blog
post, a tag listing or a category listing. It returns the page-info record
(`uri`, `page`, `type`, `blogKey`, `key`, `date`, `path`, `was_path_checked`),
or `null` when nothing matches. It throws when the URI contains `..` or when a
multi-tag key is not in alphabetical order.

This project models that class and proves what it does.

- `Text.dfy` (module `Text`): PHP's `strpos($s, '..')`, `trim($s, '/')` and
  character counting.
- `Patterns.dfy` (module `Patterns`): the two fixed regular expressions,
  `/\/(\d+)\/?$/` for pagination and `/\.[a-zA-Z0-9]+$/` for extensions,
  written as string functions. Each is proved equal to a declarative
  description of what the expression matches. The module also has `intval`
  on digit strings.
- `Tags.dfy` (module `Tags`): `explode`/`implode` on `/`, string order,
  `sort()`, and the multi-tag rule. The main result is that a multi-tag key
  is accepted exactly when it is already ascending and has no slash at
  either end.
- `PageInfo.dfy` (module `PageInfos`): the record as a value (`PageInfo`).
  The `$pageInfo` array that the strategies get by reference and overwrite
  in place is the class `PageRecord`.
- `UriParser.dfy` (module `UriParser`): the strategies as pure functions
  (`TryPage`, `TryPost`, `TryTag`, `TryCategory`) and their composition
  `Parse`. The PHP code is written out step by step as methods that mutate
  one `PageRecord` (`TryParsePageUri`, ..., `ParseUri`). Each method is
  proved against its function.
- `Properties.dfy` (module `ParseProperties`): the flat, ordered strategy
  list as a reference definition of dispatch, and lemmas about `Parse`. They
  cover the traversal gate, normalisation and pagination, first-match-wins
  order, and the shape of every returned record.

The site and the code `parseUri` calls into are the fields of a `Site`
value:
- the pages and posts directories (`None` where PieCrust returns `false`);
- the list of blog keys;
- the set of files that exist;
- one matcher per pattern kind. A matcher maps a blog key and a URI to the
  captures of the compiled pattern, or `None`;
- `getPathInfo`.

Exceptions become `Failed(Traversal)` and `Failed(TagOrder)` results.

Three behaviours of the code are easy to misread, and the model keeps them:
- the page number can be 0 (`foo/0`), not only 1 or more;
- the sorted tags are compared with the raw, untrimmed `tag` capture, not
  with the trimmed one;
- a one-tag key is the raw capture, slashes included.

## Model

| member | source | states |
|---|---|---|
| `Text.ParentTokenAnywhere` | _piecrust/src/PieCrust/Util/UriParser.php:22 | `..` placed anywhere in a string is found by the traversal test |
| `Text.ParentTokenInSlice` | _piecrust/src/PieCrust/Util/UriParser.php:22 | a slice of a string without `..` has no `..` either |
| `Text.Trim` | _piecrust/src/PieCrust/Util/UriParser.php:27 | the trimmed string has no `/` at either end and is no longer than the input |
| `Text.TrimIsSlice` | _piecrust/src/PieCrust/Util/UriParser.php:27 | trimming only removes `/` characters, and only from the two ends |
| `Text.TrimOfPadded` | _piecrust/src/PieCrust/Util/UriParser.php:27 | trimming any `/`-padding of a string that has no `/` at its ends gives that string back |
| `Text.TrimIdempotent` | _piecrust/src/PieCrust/Util/UriParser.php:27 | trimming twice is the same as trimming once |
| `Patterns.IntVal` | _piecrust/src/PieCrust/Util/UriParser.php:36 | `intval` of a digit string is its decimal value, capped at PHP_INT_MAX |
| `Patterns.DecimalLeadingZero` | _piecrust/src/PieCrust/Util/UriParser.php:36 | a leading zero does not change the page number |
| `Patterns.MatchPageSuffix` | _piecrust/src/PieCrust/Util/UriParser.php:32 | a match starts inside the URI and captures a non-empty run of digits |
| `Patterns.PageSuffixExact` | _piecrust/src/PieCrust/Util/UriParser.php:32 | the function matches at position p exactly when `/\/(\d+)\/?$/` matches there |
| `Patterns.PaginateDigitSegment` | _piecrust/src/PieCrust/Util/UriParser.php:32-37 | `prefix/<digits>` and `prefix/<digits>/` become `prefix` with the digits' value as page number; only the last segment is taken |
| `Patterns.PaginateWithoutSlash` | _piecrust/src/PieCrust/Util/UriParser.php:30-37 | a URI without `/` (including an all-digit one) keeps page 1 and is unchanged |
| `Patterns.PaginateNoMatch` | _piecrust/src/PieCrust/Util/UriParser.php:30-37 | where the expression matches nowhere, the URI is unchanged and the page is 1 |
| `Patterns.MatchExtension` | _piecrust/src/PieCrust/Util/UriParser.php:92 | a match starts inside the URI |
| `Patterns.ExtensionExact` | _piecrust/src/PieCrust/Util/UriParser.php:92 | the function matches at position p exactly when `/\.[a-zA-Z0-9]+$/` matches there |
| `Patterns.StripFinalExtension` | _piecrust/src/PieCrust/Util/UriParser.php:91-98 | only the final `.ext` is stripped: `base.ext` becomes `base`, so `a.tar.gz` becomes `a.tar` |
| `Patterns.StripNoExtension` | _piecrust/src/PieCrust/Util/UriParser.php:91-98 | without a final `.ext` the URI is left as it is |
| `Tags.Split` | _piecrust/src/PieCrust/Util/UriParser.php:149 | `explode` gives one more piece than there are `/`, and no piece contains `/` |
| `Tags.JoinSplit` | _piecrust/src/PieCrust/Util/UriParser.php:149-155 | `implode` after `explode` gives the original string |
| `Tags.SplitJoin` | _piecrust/src/PieCrust/Util/UriParser.php:149-155 | `explode` after `implode` of non-empty, `/`-free pieces gives the pieces |
| `Tags.NoLaterTotal` | _piecrust/src/PieCrust/Util/UriParser.php:154 | any two strings are comparable |
| `Tags.NoLaterAntisymmetric` | _piecrust/src/PieCrust/Util/UriParser.php:154 | strings that sort no later than each other are equal |
| `Tags.NoLaterTransitive` | _piecrust/src/PieCrust/Util/UriParser.php:154 | the string order is transitive |
| `Tags.Sort` | _piecrust/src/PieCrust/Util/UriParser.php:154 | `sort()` returns an ascending permutation of its input |
| `Tags.AscendingUnique` | _piecrust/src/PieCrust/Util/UriParser.php:154 | two ascending permutations of the same tags are equal, so any correct sort gives the same list |
| `Tags.SortAscending` | _piecrust/src/PieCrust/Util/UriParser.php:154 | sorting a list that is already ascending leaves it unchanged |
| `Tags.TagKeySingle` | _piecrust/src/PieCrust/Util/UriParser.php:149-161 | with one tag, the key is the raw capture |
| `Tags.TagKeyMulti` | _piecrust/src/PieCrust/Util/UriParser.php:149-157 | with several tags, the key is accepted if and only if the capture has no `/` at either end and its tags are ascending; the key is then exactly those tags |
| `Tags.TagKeyRejectsEmptyMiddle` | _piecrust/src/PieCrust/Util/UriParser.php:149-156 | `a//b` is refused, because its empty middle tag sorts first |
| `PageInfos.PageRecord.constructor` | _piecrust/src/PieCrust/Util/UriParser.php:39-48 | the record starts with the given URI and page, type regular, and every other field at its default |
| `UriParser.TryParsePageUri` | _piecrust/src/PieCrust/Util/UriParser.php:84-108 | matches exactly when `TryPage` does; then sets `path` and `was_path_checked` and nothing else; on a miss it writes nothing |
| `UriParser.TryParsePostUri` | _piecrust/src/PieCrust/Util/UriParser.php:110-131 | matches exactly when `TryPost` does; then sets type, blog, date and path; on a miss it writes nothing |
| `UriParser.TryParseTagUri` | _piecrust/src/PieCrust/Util/UriParser.php:133-171 | matches, misses or throws exactly as `TryTag` does; throwing or missing writes nothing |
| `UriParser.TryParseCategoryUri` | _piecrust/src/PieCrust/Util/UriParser.php:173-195 | matches exactly when `TryCategory` does; then sets type, blog, key and path; on a miss it writes nothing |
| `UriParser.ParseUri` | _piecrust/src/PieCrust/Util/UriParser.php:20-82 | the step-by-step parse, with its two loops and early returns, returns `Parse(site, raw)` |
| `ParseProperties.FirstHitAt` | _piecrust/src/PieCrust/Util/UriParser.php:50-78 | in the strategy list, the first strategy that matches or throws decides the result |
| `ParseProperties.FirstHitMiss` | _piecrust/src/PieCrust/Util/UriParser.php:80-81 | the list as a whole misses if and only if every strategy in it misses |
| `ParseProperties.ListingStrategiesAt` | _piecrust/src/PieCrust/Util/UriParser.php:68-78 | blog i's tag strategy comes just before its category strategy, after those of earlier blogs |
| `ParseProperties.StrategiesAt` | _piecrust/src/PieCrust/Util/UriParser.php:50-78 | the page comes first, then every blog's post, then every blog's tag and category |
| `ParseProperties.DispatchIsFirstHit` | _piecrust/src/PieCrust/Util/UriParser.php:50-81 | the nested page/posts/listings dispatch equals first-match over the flat strategy list |
| `ParseProperties.OnlyTagsThrow` | _piecrust/src/PieCrust/Util/UriParser.php:156 | only a tag strategy throws, and only the tag-order exception |
| `ParseProperties.DispatchNeverTraversal` | _piecrust/src/PieCrust/Util/UriParser.php:50-81 | no strategy raises the traversal exception |
| `ParseProperties.TraversalExact` | _piecrust/src/PieCrust/Util/UriParser.php:22-25 | the parse fails with the traversal exception if and only if the URI contains `..` |
| `ParseProperties.TraversalFirst` | _piecrust/src/PieCrust/Util/UriParser.php:22-25 | a URI with `..` anywhere fails, whatever the site |
| `ParseProperties.NormaliseIndex` | _piecrust/src/PieCrust/Util/UriParser.php:27-28 | an empty URI, or one of only slashes, becomes the index page with page 1 |
| `ParseProperties.NormalisePaginated` | _piecrust/src/PieCrust/Util/UriParser.php:27-37 | leading and trailing slashes go; then a final `/<digits>` becomes the page number and is removed |
| `ParseProperties.NormaliseUnpaginated` | _piecrust/src/PieCrust/Util/UriParser.php:30-37 | without a final digit segment, the trimmed URI is used as is, with page 1 |
| `ParseProperties.NormalisedUri` | _piecrust/src/PieCrust/Util/UriParser.php:27-37 | the normalised URI is non-empty, does not start with `/` and does not contain `..` |
| `ParseProperties.ParseIsFirstMatch` | _piecrust/src/PieCrust/Util/UriParser.php:50-81 | when there is no `..`, the parse returns what the first matching or throwing strategy yields |
| `ParseProperties.NotFoundExact` | _piecrust/src/PieCrust/Util/UriParser.php:80-81 | `null` is returned if and only if there is no `..` and every strategy misses |
| `ParseProperties.FirstMatchWins` | _piecrust/src/PieCrust/Util/UriParser.php:50-78 | a strategy that matches or throws, after earlier ones have all missed, decides the result |
| `ParseProperties.PostOrder` | _piecrust/src/PieCrust/Util/UriParser.php:58-65 | when no page matches, the first blog in order whose post pattern matches gives the result |
| `ParseProperties.TagStrategyReached` | _piecrust/src/PieCrust/Util/UriParser.php:68-73 | once the page, every post and the earlier blogs' listings have missed, a match or exception of blog i's tag strategy is the result |
| `ParseProperties.CategoryStrategyReached` | _piecrust/src/PieCrust/Util/UriParser.php:68-77 | once blog i's tag strategy has also missed, blog i's category match is the result |
| `ParseProperties.ListingOrderAt` | _piecrust/src/PieCrust/Util/UriParser.php:67-78 | after the page and all posts miss, blogs are tried in order, tag before category |
| `ParseProperties.ListingOrder` | _piecrust/src/PieCrust/Util/UriParser.php:67-78 | the same for `Parse`: a tag match or tag-order exception at blog i wins over blog i's category and every later blog |
| `ParseProperties.PageWins` | _piecrust/src/PieCrust/Util/UriParser.php:50-54 | an existing page file wins over every post, tag and category pattern |
| `ParseProperties.PostsFromShape` | _piecrust/src/PieCrust/Util/UriParser.php:110-131 | post results never throw, name a configured blog, and carry that blog's path info and date |
| `ParseProperties.ListingsFromShape` | _piecrust/src/PieCrust/Util/UriParser.php:133-195 | tag and category results name a configured blog and its listing page path |
| `ParseProperties.FoundKeepsUriAndPage` | _piecrust/src/PieCrust/Util/UriParser.php:39-41 | every returned record has the normalised URI and page number |
| `ParseProperties.FoundRegular` | _piecrust/src/PieCrust/Util/UriParser.php:84-108 | `was_path_checked` is set if and only if the result is a regular page; such a page's path is an existing `pagesDir + stripped uri + .html`, and its other fields keep their defaults |
| `ParseProperties.FoundListed` | _piecrust/src/PieCrust/Util/UriParser.php:112-128 | post, tag and category records leave `was_path_checked` false, name a configured blog, and take date, path and key from that blog's matches |
| `ParseProperties.FoundTagKey` | _piecrust/src/PieCrust/Util/UriParser.php:150-157 | a returned multi-tag key has at least two tags, in ascending order |
| `ParseProperties.BlogPrefixExact` | _piecrust/src/PieCrust/Util/UriParser.php:143-145 | the listing path prefix is empty if and only if the blog is the default one; otherwise it is `blogKey/` |

## Left out

- `is_file`, `getPagesDir` and `getPostsDir` (lines 86, 101, 112) are I/O. They are given values in `Site`: a set of existing paths and two optional directories.
- `UriBuilder::build*UriPattern` and `preg_match` on its patterns (lines 117, 140, 179) are not part of this model. Each is an abstract matcher in `Site`. The tag and category matchers return the `tag` and `cat` captures directly, so a pattern without that named group is not modelled.
- `FileSystem::create` and `getPathInfo` (lines 120-121) are not part of this model. They are one abstract function. Its year, month and day are already integers, so the `intval` calls on them at line 122 are folded into it.
- `mktime` (line 122) depends on the time zone. The date is a (year, month, day) triple, and out-of-range months or days are not carried over into the next month or year.
- Configuration access (`getValueUnchecked`, lines 56, 117, 140, 179) is plain input data in `Site`.
- `PieCrustDefaults` is not part of this model. Its constants take PieCrust's values: `_index`, `_tag`, `_category` and `blog`.
- `sort()` with `SORT_REGULAR` (line 154) compares two numeric-looking strings as numbers. The model uses plain code-point order, which is what `strcmp` gives on UTF-8 bytes, so tags such as `10` and `9` are ordered differently than in PHP. `Tags.Sort` is an insertion sort. `Tags.AscendingUnique` shows that every correct sort gives its result.
- The loose comparisons at lines 28, 144 and 155 are modelled as exact string equality. At line 28 and at line 144 one side is non-numeric, so PHP compares them as strings. At line 155 the joined tags hold a `/`, so they are never a numeric string.
- PCRE's `$` also matches before a final newline. That case is not modelled: a URI ending in `\n` is handled as if the newline were an ordinary character.
- `Patterns.IntVal`: the cap at PHP_INT_MAX assumes a 64-bit PHP build.
- Exceptions are results (`Failed(Traversal)`, `Failed(TagOrder)`), not control flow. Their message texts are not modelled.
