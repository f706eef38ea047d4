# A model of the ViegPhunt portfolio site's logic, in Dafny

The site is an Astro portfolio. It has a few React widgets and a build-time
Python script that writes its content files. This project models the logic
in them:

- **The search modal** (`Search`, src/components/SearchModal.tsx). Cards
  become search entries. The query filters them. The modal's state
  (`query`, `results`, `allItems` and the body-scroll lock) changes through
  its effects and handlers.
- **The scroll-direction hook** (`ScrollDirection`,
  src/hooks/useScrollDirection.ts). It has an 8-pixel top zone, a
  24-pixel hysteresis and the `ticking` guard. Requested animation frames
  are explicit events.
- **The header** (`Header`, src/components/Header.tsx). It covers path
  normalisation, the active navigation link, when the header is visible,
  and the menu and search toggles.
- **The table of contents** (`TableOfContents`,
  src/components/TableOfContents.tsx). Headings become records. The active
  entry follows observer batches and clicks. The drawn list is derived from
  the records.
- **The content generator** (`FetchContent`, scripts/FetchContent.py). It
  covers the project slug, the title, description and topics, the
  frontmatter and page assembly, the loop over `data.json`, the write-up
  `updated` date, and the write-up frontmatter loop.

Two modules support these:

- `Text` holds the JavaScript and Python string operations the code uses:
  `trim`, lower-casing, `includes`, `split`, `join`, `splitlines`, and
  `replace` with a string pattern.
- `Json` holds parsed JSON values and the Python operations the script
  applies to them: `dict.get`, subscripting, `len`, truth tests,
  `str.join` and `str()`.

Inputs from outside become plain values:

- DOM queries become sequences of records.
- A fetch becomes an outcome value.
- `window.scrollY` and element positions become integers.
- Network answers, git results and file contents become parameters.

Where the source changes state step by step, the model is a class. Its
methods update fields, and their contracts tie the new state to the
functions that specify it.

Two behaviours of the home-page fetch follow from the code as written:

- **A second fetch of the home page.** The collection effect of
  SearchModal.tsx (lines 43-64) depends on `[isOpen, allItems.length]`. It
  runs whenever the modal is open and nothing has been collected. So
  closing and reopening while the first fetch of `/` is still in flight
  issues a second fetch (`Search.SearchModal.Collect`).
- **Failed fetches are retried.** A failed fetch is only logged
  (line 61). `allItems` stays empty, so the next opening fetches again; the
  failure is not final (`Search.SearchModal.HomeArrived`).

## Model

| member | source | states |
|---|---|---|
| Text.Trim | src/components/SearchModal.tsx:98 | `trim()` returns a contiguous slice of the input that neither starts nor ends with whitespace, and everything before and after that slice is whitespace. It is empty exactly when the input is all whitespace. |
| Text.TrimBlank | src/components/SearchModal.tsx:98 | Trimming the start and then the end leaves nothing exactly when the input is all whitespace. What is left neither starts nor ends with whitespace. |
| Text.TrimOccurs | src/components/SearchModal.tsx:98 | After stripping the start and then the end, the rest sits where the leading whitespace ends, with only whitespace on both sides. |
| Text.Lower | src/components/SearchModal.tsx:103-107 | Lower-casing keeps the length and maps every character through the ASCII letter mapping. |
| Text.LowerIdempotent | src/components/SearchModal.tsx:103-107 | Lower-casing twice is lower-casing once. |
| Text.LowerKeepsBlank | src/components/SearchModal.tsx:98-103 | Lower-casing does not change whether a string is blank. |
| Text.ContainsIff | src/components/SearchModal.tsx:105-107 | `includes` holds exactly when the pattern occurs at some position. |
| Text.Split | src/components/SearchModal.tsx:31 | `split` on one character gives at least one piece, and no piece holds the separator. |
| Text.JoinSplit | src/components/SearchModal.tsx:31 | Joining the pieces of a split with the separator gives the original string back. |
| Text.SplitJoin | scripts/FetchContent.py:149 | Splitting a join of separator-free pieces gives the pieces back. |
| Text.RemoveFirst | src/components/TableOfContents.tsx:21 | `replace('#', '')` leaves a string without '#' unchanged. Otherwise it removes exactly the first '#' and keeps every other character in order. |
| Text.SplitLines | scripts/FetchContent.py:205 | `splitlines()` gives lines without boundary characters, and no lines for ''. |
| Text.SplitLinesCons | scripts/FetchContent.py:205 | A line followed by '\n' splits off as the first line. |
| Text.SplitLinesBreak | scripts/FetchContent.py:205 | A line followed by any one boundary character splits off as the first line. A '\r' counts alone only when no '\n' follows it. |
| Text.SplitLinesCrlf | scripts/FetchContent.py:205 | A line followed by '\r\n' splits off as the first line, so the pair is one boundary. |
| Text.JoinSplitLines | scripts/FetchContent.py:205 | For text whose only line boundary is '\n', re-joining the lines with '\n' gives the text back, except a final '\n'. |
| Search.OrElse | src/components/SearchModal.tsx:29-30 | `a \|\| b` is `a` when `a` is present and non-empty, and `b` otherwise. |
| Search.NonEmpty | src/components/SearchModal.tsx:31 | `filter(Boolean)` keeps exactly the non-empty pieces. |
| Search.NonEmptyAppend | src/components/SearchModal.tsx:31 | Dropping the empty pieces of two stretches gives the kept pieces of the first, then those of the second. Order and repeats are kept. |
| Search.NonEmptySingle | src/components/SearchModal.tsx:31 | One piece is kept iff it is non-empty. |
| Search.TagList | src/components/SearchModal.tsx:31 | The tags of a `data-tags` value: its comma-separated pieces, empty ones dropped. The properties are proved in the rows that follow. |
| Search.TagListSpec | src/components/SearchModal.tsx:31 | The tags are the split of the attribute at ',' with the empty pieces dropped. No tag is empty or holds ','. The tags concatenated are the attribute with its commas removed, so nothing else is lost or trimmed. |
| Search.TagListOfJoin | src/components/SearchModal.tsx:31 | Comma-free pieces joined with ',' come back as the tags, empty ones dropped, so the split falls at the commas and nowhere else. |
| Search.DoubleCommaDropped | src/components/SearchModal.tsx:31 | A doubled comma between two non-empty tags gives exactly those two tags, in order. |
| Search.CardLink | src/components/SearchModal.tsx:34 | The link is the card's own `href`, else its first anchor's, else ''. It is characterised through `Search.OrElse`. |
| Search.CategoryOf | src/components/SearchModal.tsx:35 | An entry is a project iff its link contains "/projects/", and a write-up otherwise. |
| Search.ParseCard | src/components/SearchModal.tsx:28-37 | The entry's title, description and link fall back to '' when absent. Its category follows the link. Its tags are `TagList` of the card's tags attribute, so each is non-empty and free of commas. |
| Search.MissingFieldsAreEmpty | src/components/SearchModal.tsx:29-31 | A missing title, description or tags attribute becomes '' or no tags. |
| Search.ParseCards | src/components/SearchModal.tsx:25-40 | `parseCards` gives one entry per card, in card order. Each entry is that card's `ParseCard`. |
| Search.Parsed | src/components/SearchModal.tsx:25-40 | The specification of `parseCards`: one entry per card, in order. |
| Search.Filter | src/components/SearchModal.tsx:104-108 | `allItems.filter(...)` with the lower-cased query. What it keeps is proved in the four rows that follow. |
| Search.FilterMembers | src/components/SearchModal.tsx:104-108 | An item is kept iff it is among the items and its lower-cased title, description or some tag contains the query. No more items come out than went in. |
| Search.FilterAppend | src/components/SearchModal.tsx:104-108 | Filtering a concatenation concatenates the filtered parts. |
| Search.FilterSingle | src/components/SearchModal.tsx:104-108 | One item is kept iff it matches. |
| Search.FilterIsSubsequence | src/components/SearchModal.tsx:104-108 | The filter keeps the items in their collected order. |
| Search.SearchResults | src/components/SearchModal.tsx:97-111 | The search effect: nothing for a blank query, otherwise the filter with the lower-cased query. It is characterised by `Search.SearchResultsSpec`. |
| Search.SearchResultsSpec | src/components/SearchModal.tsx:97-111 | A blank query gives no results, whatever the items are. Otherwise the results are `Filter` of the items with the lower-cased, untrimmed query, so they are exactly the matching items. |
| Search.SearchIsOrderedSubset | src/components/SearchModal.tsx:97-111 | Results are an order-preserving subsequence of the items, and each one matches. |
| Search.SearchCaseInsensitive | src/components/SearchModal.tsx:103-107 | A query and its lower-cased form give the same results. |
| Search.HeapQueryFilters | src/components/SearchModal.tsx:98-103 | "heap" is not blank and is already lower-case, so the search filters with it unchanged. |
| Search.HeapExample | src/components/SearchModal.tsx:97-111 | Searching "heap" finds the entry whose title and tag mention it and skips the other entry. |
| Search.AfterKey | src/components/SearchModal.tsx:74-82 | One key press: the Escape handler calls `onClose` when the key is Escape and the modal is open. Otherwise nothing changes. |
| Search.AfterKeys | src/components/SearchModal.tsx:74-82 | A run of key presses, one after another. |
| Search.AfterKeysSpec | src/components/SearchModal.tsx:74-82 | After any run of key presses the modal is open iff it was open and no key was Escape. Keys never open it. |
| Search.SearchModal.constructor | src/components/SearchModal.tsx:19-21 | The initial state is empty and consistent. |
| Search.SearchModal.Collect | src/components/SearchModal.tsx:43-64 | Collection runs only while open with nothing collected. Page cards are parsed into `allItems`, and the results are recomputed. A fetch is issued iff the page has no cards. |
| Search.SearchModal.HomeArrived | src/components/SearchModal.tsx:53-61 | A fetched home page replaces the items with its parsed cards. A failure leaves them unchanged. The results stay those of the query. |
| Search.SearchModal.Input | src/components/SearchModal.tsx:97-111 | A new query recomputes the results. |
| Search.SearchModal.Clear | src/components/SearchModal.tsx:113-117 | `handleClear` empties the query and the results and keeps the items. |
| Search.SearchModal.OverflowEffect | src/components/SearchModal.tsx:85-90 | The body scroll is locked ("hidden") iff the modal is open. |
| Search.SearchModal.OverflowCleanup | src/components/SearchModal.tsx:91-93 | The cleanup releases the body scroll. |
| ScrollDirection.HandleScroll | src/hooks/useScrollDirection.ts:11-26 | `handleScroll` releases the guard. It changes `lastY` only to `y`. It sets down only when `y > 8` and `y >= lastY + 24`. |
| ScrollDirection.RequestFrame | src/hooks/useScrollDirection.ts:28-33 | `onScroll` requests a frame only when none is pending, and sets `ticking`. |
| ScrollDirection.RunFrame | src/hooks/useScrollDirection.ts:11-26 | A frame consumes the pending request and leaves `ticking` false. |
| ScrollDirection.Step | src/hooks/useScrollDirection.ts:11-40 | One event: a scroll event goes through `onScroll`, a frame runs `handleScroll` only when one was requested, and `setScrollDir` sets the direction. Its properties are proved in the rows below. |
| ScrollDirection.Run | src/hooks/useScrollDirection.ts:11-40 | A sequence of events, applied in order. |
| ScrollDirection.StepKeepsInv | src/hooks/useScrollDirection.ts:17-33 | Every event keeps "at most one frame pending, and `ticking` iff one is". |
| ScrollDirection.RunKeepsInv | src/hooks/useScrollDirection.ts:17-33 | Every sequence of events keeps that invariant. |
| ScrollDirection.AtMostOneFrame | src/hooks/useScrollDirection.ts:6-33 | From the initial state, at most one frame is ever pending. |
| ScrollDirection.RunKeepsDownBelowTop | src/hooks/useScrollDirection.ts:14-24 | Without outside `setScrollDir` calls, "down" only ever holds with `lastY` below the top zone. |
| ScrollDirection.TopResets | src/hooks/useScrollDirection.ts:14-18 | At `y <= 8` the direction becomes up and `lastY` becomes `y`, whatever came before. |
| ScrollDirection.LargeMoveDecides | src/hooks/useScrollDirection.ts:21-24 | Below the top, a move of at least 24 sets down iff `y > lastY`, and sets `lastY` to `y`. |
| ScrollDirection.SmallMoveKeeps | src/hooks/useScrollDirection.ts:21-25 | Below the top, a move of less than 24 changes neither the direction nor `lastY`. |
| ScrollDirection.Tracker.constructor | src/hooks/useScrollDirection.ts:6-8 | The initial state is up, `lastY` 0, not ticking, nothing pending. |
| ScrollDirection.Tracker.OnScroll | src/hooks/useScrollDirection.ts:28-33 | The scroll listener moves the state as `RequestFrame` does and keeps the invariant. |
| ScrollDirection.Tracker.Frame | src/hooks/useScrollDirection.ts:11-26 | A frame moves the state as `RunFrame` does and keeps the invariant. |
| ScrollDirection.Tracker.SetDir | src/hooks/useScrollDirection.ts:40 | The returned setter changes only the direction. |
| Header.Normalize | src/components/Header.tsx:22-23 | The result is never empty. It is the path with exactly one trailing '/' removed, or '/' for '' and '/'. |
| Header.IsActive | src/components/Header.tsx:21-24 | A link is active when the page and its href normalise alike. `Header.AtMostOneActive` is proved about it. |
| Header.TrailingSlashIgnored | src/components/Header.tsx:22-24 | '/x' and '/x/' name the same page. |
| Header.RootIsRoot | src/components/Header.tsx:22-23 | '/' and '' both normalise to '/'. |
| Header.NavLinksNormal | src/components/Header.tsx:33-38 | Every menu href is already in normal form. |
| Header.NavHrefsDistinct | src/components/Header.tsx:33-38 | The four menu entries point to four different paths. |
| Header.AtMostOneActive | src/components/Header.tsx:21-38 | For any pathname, at most one of the four menu links is active. |
| Header.HeaderShown | src/components/Header.tsx:47 | The header is shown iff the menu is open or the direction is up. |
| Header.Header.constructor | src/components/Header.tsx:10-11 | Menu and search start closed, and the body scroll is free. |
| Header.Header.OverflowEffect | src/components/Header.tsx:13-15 | The body scroll is "hidden" iff the menu is open. |
| Header.Header.ToggleMenu | src/components/Header.tsx:72 | The menu button flips `isMenuOpen` and keeps the overflow rule. |
| Header.Header.CloseMenu | src/components/Header.tsx:17-19 | An overlay click, a link click or a pathname change closes the menu and keeps the overflow rule. |
| Header.Header.OpenSearch | src/components/Header.tsx:95-98 | The search button opens the search and closes the menu. |
| Header.Header.CloseSearch | src/components/Header.tsx:111 | The modal's `onClose` closes the search. |
| Header.Header.EscapeKey | src/components/SearchModal.tsx:74-82 | Escape while the search is open closes it through `onClose`. Any other key, or Escape while closed, changes nothing. The new state is `Search.AfterKey` of the old one, and nothing but the search flag changes. |
| Header.Header.MouseEnter | src/components/Header.tsx:65 | Mouse-enter sets the direction up, so the header is shown. |
| TableOfContents.LevelOf | src/components/TableOfContents.tsx:22 | The level is the digit after the letter, from 1 to 6. |
| TableOfContents.HeadingText | src/components/TableOfContents.tsx:21 | A heading's text: its content with the first '#' removed and then trimmed, or '' when the content is null. Its properties are proved in the two rows that follow. |
| TableOfContents.HeadingTextSpec | src/components/TableOfContents.tsx:21 | A null text gives ''. Without '#' the text is the trimmed content. The result never starts or ends with whitespace. |
| TableOfContents.HeadingTextHash | src/components/TableOfContents.tsx:21 | With a '#' in the content, the text is the content with its first '#' removed, then trimmed. |
| TableOfContents.HeadingOf | src/components/TableOfContents.tsx:19-23 | A record keeps the element's id. Its text is `HeadingText` of the element's text content, and its level is `LevelOf` its tag, from 1 to 6. |
| TableOfContents.Headings | src/components/TableOfContents.tsx:18-23 | The records of the h1-h6 elements, in document order. Its properties are proved in the rows that follow. |
| TableOfContents.HeadingsLevels | src/components/TableOfContents.tsx:18-23 | There are no more records than elements, and every level is from 1 to 6. |
| TableOfContents.ConcatMapAppend | src/components/TableOfContents.tsx:18-23 | Mapping elements to records over two stretches concatenates the two stretches' records. |
| TableOfContents.HeadingsAppend | src/components/TableOfContents.tsx:18-23 | Records keep document order. |
| TableOfContents.HeadingsSingle | src/components/TableOfContents.tsx:18-23 | A heading element gives exactly one record, and any other element gives none. |
| TableOfContents.HeadingsCount | src/components/TableOfContents.tsx:18-23 | There is exactly one record per h1-h6 element. |
| TableOfContents.Indent | src/components/TableOfContents.tsx:80 | The indentation is `(level - 1) * 20` pixels: a multiple of 20 from 0 to 100, and 0 exactly for level 1. |
| TableOfContents.IndentStep | src/components/TableOfContents.tsx:80 | Each level down is indented 20 pixels further than the one above. |
| TableOfContents.AfterBatch | src/components/TableOfContents.tsx:29-35 | After a batch the active id is that of the last intersecting entry. With no intersecting entry it is unchanged. |
| TableOfContents.View | src/components/TableOfContents.tsx:67-80 | Nothing is drawn without headings. Otherwise there is one line per heading, in order, with href `#id`, its text and the indentation `Indent` gives for its level. A line is active iff its id is the active id. |
| TableOfContents.TableOfContents.constructor | src/components/TableOfContents.tsx:10-11 | No headings and no active id. |
| TableOfContents.TableOfContents.Mount | src/components/TableOfContents.tsx:13-25 | Without an article nothing changes. Otherwise the headings are the article's records. |
| TableOfContents.TableOfContents.Observe | src/components/TableOfContents.tsx:29-35 | The observer callback leaves the active id as `AfterBatch` says. |
| TableOfContents.TableOfContents.Click | src/components/TableOfContents.tsx:52-65 | Without the element nothing changes. Otherwise the page scrolls to its top plus `pageYOffset`, minus 100 when the top is above the viewport and 35 otherwise. The URL hash and the active id become the id. |
| Json.Lookup | scripts/FetchContent.py:166-170 | A key's value is that of its last occurrence, and it is absent iff no member has the key. |
| Json.Truthy | scripts/FetchContent.py:79 | Python's truth test: None, False, 0, '', [] and {} are false, and everything else is true. |
| Json.Keys | scripts/FetchContent.py:79 | An object's keys: each key once, and exactly the keys its members carry. |
| Json.Len | scripts/FetchContent.py:79 | `len()` of a string, a list or an object. Other values raise `TypeError`. |
| Json.GetOr | scripts/FetchContent.py:166-170 | `get(key, default)` gives the key's value when it is present, and the default when it is absent. |
| Json.First | scripts/FetchContent.py:80 | `commits[0]` is the first item of a non-empty list, or the first character of a non-empty string. An empty list or string raises `IndexError`, an object `KeyError`, and anything else `TypeError`. |
| Json.Member | scripts/FetchContent.py:80 | On an object, `[key]` succeeds iff the key is present, and then gives the key's value. On an object without the key it raises `KeyError`. On anything that is not an object it raises `TypeError`. |
| Json.JoinItems | scripts/FetchContent.py:170 | What `str.join` iterates over: a list joins iff it holds only strings. Anything it cannot join raises `TypeError`. |
| Json.PyJoin | scripts/FetchContent.py:170 | A list of strings always joins, and `[]` joins to ''. |
| Json.DecimalRoundTrip | scripts/FetchContent.py:196-202 | The decimal digits `str()` writes for a number read back as that number. |
| Json.PyStr | scripts/FetchContent.py:196-202 | In an f-string, a string is written as it is, and None as "None". |
| FetchContent.RequestHeaders | scripts/FetchContent.py:17-23 | The two fixed headers come first. An `Authorization: token …` header is added iff the token is set and non-empty. |
| FetchContent.Slug | scripts/FetchContent.py:149 | The slug holds no '/' and is no longer than the repository string. |
| FetchContent.LastPieceIsSuffix | scripts/FetchContent.py:149 | `split('/')[-1]` is the text after the last '/', or the whole string when there is none. |
| FetchContent.SlugOfRepo | scripts/FetchContent.py:149 | The slug of "owner/name" is the name, lower-cased. |
| FetchContent.BannerField | scripts/FetchContent.py:173-202 | The banner is "./images/banner.png" iff the banner was saved. Otherwise it is the two characters '""'. |
| FetchContent.Title | scripts/FetchContent.py:166 | The title is the entry's own `name` if that key is present, else GitHub's `name`, else the slug. |
| FetchContent.Description | scripts/FetchContent.py:167 | The description is GitHub's if it is truthy, and "No description" otherwise. |
| FetchContent.TopicsJoined | scripts/FetchContent.py:170 | A list of topic strings is joined with ", ". |
| FetchContent.Body | scripts/FetchContent.py:205 | The README after its first line, its lines joined with '\n'. It is characterised by the `BodyDropsFirstLine` lemmas. |
| FetchContent.ProjectFrontmatter | scripts/FetchContent.py:196-204 | The frontmatter lines of a project page in the f-string's order. `FetchContent.ProjectDocumentLines` proves how the page reads back. |
| FetchContent.ProjectDocument | scripts/FetchContent.py:196-206 | A project page: the frontmatter lines, each ended by '\n', then the body and a final '\n'. |
| FetchContent.ProcessProject | scripts/FetchContent.py:146-212 | A page is written iff the entry is an object with a string `url`, the README is non-empty, the metadata parses to an object, and the topics join. It is skipped iff the README or the metadata text is empty. Malformed metadata raises `ValueError`. A page is written under the slug and is assembled from the title, description, url, date, topics and banner above. |
| FetchContent.LinesSplit | scripts/FetchContent.py:196-206 | Text built from single-line lines, each followed by '\n', splits back into those lines. |
| FetchContent.ProjectDocumentLines | scripts/FetchContent.py:196-206 | With single-line values, the page reads as the '---'-delimited frontmatter (title, description, url, updated, topics, banner, then a blank line), followed by the body's lines. The page ends with '\n'. |
| FetchContent.FieldOneLine | scripts/FetchContent.py:197-202 | A frontmatter field, quoted or not, stays on one line when its value does. |
| FetchContent.BodyDropsFirstLine | scripts/FetchContent.py:205 | For a README whose only boundary is '\n', the body is the README after its first line, except a final '\n'. |
| FetchContent.BodyDropsFirstLineCrlf | scripts/FetchContent.py:205 | For a README whose first line ends in '\r\n', the body is the rest's lines joined with '\n'. |
| FetchContent.CrlfBody | scripts/FetchContent.py:205 | A README written with '\r\n' comes out with '\n' between its lines, and its final boundary is dropped. |
| FetchContent.Outcomes | scripts/FetchContent.py:146-212 | There is one outcome per entry of `data.json`. |
| FetchContent.Apply | scripts/FetchContent.py:146-212 | The loop over the entries as a fold over their outcomes. A written page replaces the slug's page, and a crash stops the fold. Its properties are proved in the rows that follow. |
| FetchContent.ApplyAppend | scripts/FetchContent.py:146-212 | The loop over two stretches of entries is the loop over the first, then, unless it crashed, over the second. |
| FetchContent.CrashStops | scripts/FetchContent.py:163 | An uncaught exception ends the run, and later entries change nothing. |
| FetchContent.ApplyKeeps | scripts/FetchContent.py:208-212 | A page whose slug no entry writes is left as it was. |
| FetchContent.LastWriteWins | scripts/FetchContent.py:208-212 | Without a crash, a slug's page is the one from the last entry that wrote it. |
| FetchContent.WrittenNeedsReadme | scripts/FetchContent.py:153-161 | When every entry lacks a README or metadata, no new page appears. |
| FetchContent.UpdatedDate | scripts/FetchContent.py:75-82 | The date is '' when the fetch is empty, the JSON is malformed or the list is empty. Only a `TypeError` escapes. |
| FetchContent.FirstCommitDate | scripts/FetchContent.py:80 | `commits[0]['commit']['committer']['date']`, each step raising as Python does. |
| FetchContent.UpdatedFromFirstCommit | scripts/FetchContent.py:80 | Whatever other keys the objects carry, when the first commit has `commit.committer.date`, the `updated` value is that date as `str()` writes it. |
| FetchContent.UpdatedMissingKey | scripts/FetchContent.py:80-82 | A first commit that lacks `commit`, `committer` or `date` gives ''. |
| FetchContent.UpdatedWrongKind | scripts/FetchContent.py:80-82 | A `commit` value that is not an object raises an uncaught `TypeError`. |
| FetchContent.UpdatedCommitterWrongKind | scripts/FetchContent.py:80-82 | A `committer` value that is not an object raises an uncaught `TypeError`. |
| FetchContent.BlurbOneLine | scripts/FetchContent.py:114 | The write-up description text is on one line. |
| FetchContent.WriteupFrontmatter | scripts/FetchContent.py:112-119 | The frontmatter lines of a write-up: its folder as title, the blurb and folder as description, the date and the banner. |
| FetchContent.WriteupDocument | scripts/FetchContent.py:112-123 | A write-up starts with "---\n" and ends with its original content, unchanged. |
| FetchContent.WriteupDocumentLines | scripts/FetchContent.py:112-123 | With a single-line folder name and date, the write-up reads as the frontmatter (title = folder, "My write up for some challenges from <folder>", updated, banner, then a blank line), followed by the content's lines. |
| FetchContent.ProcessWriteup | scripts/FetchContent.py:67-123 | A write-up keeps its content as a suffix. It fails iff the date lookup raises. On success the file is `WriteupDocument` of the folder's name, its last-commit date, its banner flag and its content. |
| FetchContent.AddAll | scripts/FetchContent.py:67-123 | The write-up loop as a fold over the folders. It stops at the first failure. Its properties are proved by `FetchContent.AddAllSpec`. |
| FetchContent.AddAllSpec | scripts/FetchContent.py:67-123 | Without a crash, every listed folder's file is its frontmatter followed by its old content, and no other file changes. |
| FetchContent.ProjectsDir.constructor | scripts/FetchContent.py:132-133 | The projects directory starts with the given pages. |
| FetchContent.ProjectsDir.FetchProjects | scripts/FetchContent.py:140-214 | The loop leaves the pages and the crash exactly as the fold `Apply` over the entries' outcomes does. |
| FetchContent.WriteupsDir.constructor | scripts/FetchContent.py:40-64 | The write-ups directory starts with the cloned files. |
| FetchContent.WriteupsDir.AddFrontmatter | scripts/FetchContent.py:67-123 | The loop leaves the files and the crash exactly as the fold `AddAll` over the folders does. |

## Left out

- Text.Lower: lower-casing covers ASCII letters only. JavaScript's `toLowerCase` and Python's `lower` also map other Unicode letters.
- Json.PyStr: lists and objects, which Python writes in its own repr syntax, are rendered as ''. Its contract states only the string and None cases.
- JSON numbers are integers. Floating-point values from GitHub are not modelled.
- ScrollDirection: `window.scrollY` is an integer. Fractional pixel offsets and `scrollY || 0` on a missing value are not modelled.
- TableOfContents.TableOfContents.Click: the element's top from `getBoundingClientRect` and `window.pageYOffset` are integers. Fractional pixel offsets are not modelled, and the element lookup is an input.
- The browser parts are not modelled: `fetch('/')`, `DOMParser`, `querySelectorAll`, focus handling, event-listener registration and the JSX markup and class strings. Cards, elements, observer entries and the fetch outcome are inputs.
- React's scheduling is not modelled. That covers the order of effects, batching of state updates, and the interplay of Header's and SearchModal's writes to `document.body.style.overflow`. Each component's overflow rule is modelled on its own.
- Real animation-frame timing is not modelled. A requested frame fires as an explicit `Frame` event.
- Search.SearchModal: a whitespace-only query shows the "No results" dropdown. That text is part of the JSX and is not modelled; the results are empty as `Search.SearchResultsSpec` states.
- scripts/FetchContent.py is modelled with the semantics of Python 3.12 or later. Line 205 puts a backslash inside an f-string expression, which earlier versions reject as a syntax error.
- The network and the filesystem in FetchContent.py are not modelled: `urlopen`, the GitHub API, git clone, removing `.git`/`.github`, renaming README.md to index.md, file reads and writes, `os.chdir` and printing. Fetched texts, parsed JSON and file contents are parameters.
- FetchContent.ProcessProject: exceptions that `fetch_url` does not catch (for example a timeout while reading) are not modelled.
- FetchContent.ProcessProject: a banner download's outcome is a boolean input. The image bytes are not modelled.
- FetchContent.ProjectsDir.FetchProjects: the `data.json` read and the `projects` lookup are not modelled. The entries are given as a list.
- The PIL banner resize in `clone_writeups` is not modelled. It is float scaling whose failures are all caught. Whether a banner exists is an input.
- src/components/Scrollbar.tsx, src/components/ScrollToTop.tsx and src/components/ChangePage.tsx are not part of this model. They are floating-point geometry, timers and DOM plumbing.
- scripts/RenameSitemap.js, astro.config.mjs, tailwind.config.mjs and src/content/config.ts are not part of this model. They hold file renames and declarative configuration.
