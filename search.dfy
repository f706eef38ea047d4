/** The search modal of the site header (src/components/SearchModal.tsx):
    card extraction, the query filter, and the modal's component state. */
module Search {
  import opened Text

  datatype Category = Project | Writeup

  /** One searchable entry (`SearchResult`). */
  datatype SearchResult = SearchResult(
    title: string,
    description: string,
    link: string,
    category: Category,
    tags: seq<string>)

  /** What the extraction reads from one `[data-card]` element: its
      `data-title`, `data-description` and `data-tags` attributes (absent or
      present), the card's own `href` when it is an anchor, and the `href` of
      the first anchor inside it. */
  datatype Card = Card(
    title: Option<string>,
    description: Option<string>,
    tags: Option<string>,
    href: Option<string>,
    innerHref: Option<string>)

  /** The outcome of fetching and parsing the home page. */
  datatype HomeFetch = Fetched(cards: seq<Card>) | FetchFailed

  /** JavaScript's `a || b` on an optional string: an absent or empty value
      falls through to the alternative. */
  function OrElse(a: Option<string>, b: string): (r: string)
    ensures a.Some? && a.value != [] ==> r == a.value
    ensures a.None? || a.value == [] ==> r == b
  {
    if a.Some? && a.value != [] then a.value else b
  }

  /** `(s || '').split(',').filter(Boolean)`. */
  function TagList(s: Option<string>): seq<string>
  {
    NonEmpty(Split(OrElse(s, []), ','))
  }

  /** `filter(Boolean)` on a list of strings. */
  function NonEmpty(pieces: seq<string>): (r: seq<string>)
    ensures forall i :: 0 <= i < |r| ==> r[i] != [] && r[i] in pieces
    ensures forall p :: p in pieces && p != [] ==> p in r
    decreases |pieces|
  {
    if |pieces| == 0 then []
    else if pieces[0] == [] then NonEmpty(pieces[1..])
    else [pieces[0]] + NonEmpty(pieces[1..])
  }

  /** Dropping the empty pieces of two stretches one after the other: the
      kept pieces stay in order, each as many times as it was there. */
  lemma {:induction false} NonEmptyAppend(a: seq<string>, b: seq<string>)
    ensures NonEmpty(a + b) == NonEmpty(a) + NonEmpty(b)
    decreases |a|
  {
    if |a| > 0 {
      NonEmptyAppend(a[1..], b);
      assert (a + b)[1..] == a[1..] + b;
    } else {
      assert a + b == b;
    }
  }

  lemma NonEmptySingle(p: string)
    ensures NonEmpty([p]) == if p == [] then [] else [p]
  {
  }

  /** Concatenating the pieces of a list of strings. */
  function Concat(pieces: seq<string>): string
    decreases |pieces|
  {
    if |pieces| == 0 then [] else pieces[0] + Concat(pieces[1..])
  }

  /** The input with every occurrence of `c` deleted. */
  function Without(s: string, c: char): string
    decreases |s|
  {
    if |s| == 0 then [] else (if s[0] == c then [] else [s[0]]) + Without(s[1..], c)
  }

  lemma {:induction false} ConcatNonEmpty(pieces: seq<string>)
    ensures Concat(NonEmpty(pieces)) == Concat(pieces)
    decreases |pieces|
  {
    if |pieces| > 0 {
      ConcatNonEmpty(pieces[1..]);
    }
  }

  lemma {:induction false} ConcatSplit(s: string, sep: char)
    ensures Concat(Split(s, sep)) == Without(s, sep)
    decreases |s|
  {
    if |s| > 0 {
      ConcatSplit(s[1..], sep);
      var rest := Split(s[1..], sep);
      if s[0] != sep {
        assert rest == [rest[0]] + rest[1..];
        assert Concat(rest) == rest[0] + Concat(rest[1..]);
      }
    }
  }

  /** The tags are the comma-separated pieces of `data-tags`: none is empty,
      none holds a comma, and read one after the other they spell the
      attribute with its commas taken out (so no character is lost or
      trimmed). */
  lemma TagListSpec(s: Option<string>)
    ensures TagList(s) == NonEmpty(Split(OrElse(s, []), ','))
    ensures forall i :: 0 <= i < |TagList(s)| ==> TagList(s)[i] != [] && ',' !in TagList(s)[i]
    ensures Concat(TagList(s)) == Without(OrElse(s, []), ',')
  {
    var pieces := Split(OrElse(s, []), ',');
    ConcatNonEmpty(pieces);
    ConcatSplit(OrElse(s, []), ',');
  }

  /** Splitting happens at the commas and nowhere else: pieces without a
      comma joined with commas come back as the tags, empty ones dropped. */
  lemma TagListOfJoin(pieces: seq<string>)
    requires |pieces| >= 1
    requires forall i :: 0 <= i < |pieces| ==> ',' !in pieces[i]
    ensures TagList(Some(Join(pieces, ","))) == NonEmpty(pieces)
  {
    SplitJoin(pieces, ',');
  }

  /** A doubled comma leaves no empty tag: `"pwn,,heap"` gives the two
      tags, in order. */
  lemma DoubleCommaDropped(a: string, b: string)
    requires a != [] && b != [] && ',' !in a && ',' !in b
    ensures TagList(Some(a + ",," + b)) == [a, b]
  {
    var pieces := [a, [], b];
    JoinCons(a, [[], b], ",");
    JoinCons([], [b], ",");
    assert Join(pieces, ",") == a + ",," + b;
    TagListOfJoin(pieces);
    NonEmptyAppend([a], [[], b]);
    NonEmptyAppend([[]], [b]);
    assert [a] + [[], b] == pieces;
    assert [[]] + [b] == [[], b];
  }

  /** The link is the card's own `href`, else its first anchor's, else ''. */
  function CardLink(card: Card): string
  {
    OrElse(card.href, OrElse(card.innerHref, []))
  }

  /** A link under `/projects/` is a project, anything else a write-up. */
  function CategoryOf(link: string): (c: Category)
    ensures c == Project <==> Contains(link, "/projects/")
  {
    if Contains(link, "/projects/") then Project else Writeup
  }

  /** The entry built from one card. */
  function ParseCard(card: Card): (r: SearchResult)
    ensures r.title == OrElse(card.title, [])
    ensures r.description == OrElse(card.description, [])
    ensures r.link == CardLink(card)
    ensures r.category == Project <==> Contains(r.link, "/projects/")
    ensures r.tags == TagList(card.tags)
    ensures forall i :: 0 <= i < |r.tags| ==> r.tags[i] != [] && ',' !in r.tags[i]
  {
    TagListSpec(card.tags);
    var link := CardLink(card);
    SearchResult(OrElse(card.title, []), OrElse(card.description, []), link, CategoryOf(link), TagList(card.tags))
  }

  /** A missing or empty title or description becomes ''. */
  lemma MissingFieldsAreEmpty(card: Card)
    ensures card.title.None? ==> ParseCard(card).title == []
    ensures card.description.None? ==> ParseCard(card).description == []
    ensures card.tags.None? ==> ParseCard(card).tags == []
  {
  }

  /** `parseCards`: one entry per card, in card order. */
  method ParseCards(cards: seq<Card>) returns (items: seq<SearchResult>)
    ensures |items| == |cards|
    ensures forall i :: 0 <= i < |cards| ==> items[i] == ParseCard(cards[i])
  {
    items := [];
    var i := 0;
    while i < |cards|
      invariant 0 <= i <= |cards|
      invariant |items| == i
      invariant forall j :: 0 <= j < i ==> items[j] == ParseCard(cards[j])
    {
      items := items + [ParseCard(cards[i])];
      i := i + 1;
    }
  }

  /** The specification of `parseCards`, for use in functions and lemmas. */
  function Parsed(cards: seq<Card>): (items: seq<SearchResult>)
    ensures |items| == |cards|
    ensures forall i :: 0 <= i < |cards| ==> items[i] == ParseCard(cards[i])
  {
    seq(|cards|, i requires 0 <= i < |cards| => ParseCard(cards[i]))
  }

  /** Some tag contains the (already lower-cased) query. */
  predicate SomeTagMatches(tags: seq<string>, q: string)
  {
    exists i :: 0 <= i < |tags| && Contains(Lower(tags[i]), q)
  }

  /** The filter's test: the lower-cased title, description or some tag
      contains `q`. */
  predicate Matches(item: SearchResult, q: string)
  {
    || Contains(Lower(item.title), q)
    || Contains(Lower(item.description), q)
    || SomeTagMatches(item.tags, q)
  }

  /** `allItems.filter(...)` with the given lower-cased query. */
  function Filter(items: seq<SearchResult>, q: string): seq<SearchResult>
    decreases |items|
  {
    if |items| == 0 then []
    else (if Matches(items[0], q) then [items[0]] else []) + Filter(items[1..], q)
  }

  /** The filter keeps exactly the items that match, and no more items
      than there were. */
  lemma {:induction false} FilterMembers(items: seq<SearchResult>, q: string)
    ensures |Filter(items, q)| <= |items|
    ensures forall x :: x in Filter(items, q) <==> x in items && Matches(x, q)
    decreases |items|
  {
    if |items| > 0 {
      FilterMembers(items[1..], q);
      assert items == [items[0]] + items[1..];
    }
  }

  /** Filtering a concatenation is concatenating the filtered parts; with
      `FilterSingle` this determines the result completely, order included. */
  lemma {:induction false} FilterAppend(a: seq<SearchResult>, b: seq<SearchResult>, q: string)
    ensures Filter(a + b, q) == Filter(a, q) + Filter(b, q)
    decreases |a|
  {
    if |a| > 0 {
      FilterAppend(a[1..], b, q);
      assert (a + b)[1..] == a[1..] + b;
    } else {
      assert a + b == b;
    }
  }

  lemma FilterSingle(x: SearchResult, q: string)
    ensures Filter([x], q) == if Matches(x, q) then [x] else []
  {
  }

  /** `sub` is an order-preserving subsequence of `s`. */
  ghost predicate IsSubsequence<T>(sub: seq<T>, s: seq<T>)
    decreases |s|
  {
    || |sub| == 0
    || (|s| > 0 && ((sub[0] == s[0] && IsSubsequence(sub[1..], s[1..])) || IsSubsequence(sub, s[1..])))
  }

  /** The filter keeps the collected order. */
  lemma {:induction false} FilterIsSubsequence(items: seq<SearchResult>, q: string)
    ensures IsSubsequence(Filter(items, q), items)
    decreases |items|
  {
    if |items| > 0 {
      FilterIsSubsequence(items[1..], q);
      var rest := Filter(items[1..], q);
      if Matches(items[0], q) {
        assert Filter(items, q) == [items[0]] + rest;
        assert ([items[0]] + rest)[1..] == rest;
      } else {
        assert Filter(items, q) == rest;
      }
    }
  }

  /** The search effect: a blank query shows nothing; otherwise the items
      whose title, description or a tag contain the lower-cased query, which
      is not trimmed. */
  function SearchResults(query: string, allItems: seq<SearchResult>): seq<SearchResult>
  {
    if Trim(query) == [] then [] else Filter(allItems, Lower(query))
  }

  /** A blank query gives no results, whatever the items; any other query
      gives exactly the items that match its lower-cased form. */
  lemma SearchResultsSpec(query: string, allItems: seq<SearchResult>)
    ensures IsBlank(query) ==> SearchResults(query, allItems) == []
    ensures !IsBlank(query) ==> SearchResults(query, allItems) == Filter(allItems, Lower(query))
    ensures !IsBlank(query) ==> forall x :: x in SearchResults(query, allItems) <==> x in allItems && Matches(x, Lower(query))
  {
    if !IsBlank(query) {
      FilterMembers(allItems, Lower(query));
    }
  }

  /** Results are the order-preserving subsequence of the items that match. */
  lemma SearchIsOrderedSubset(query: string, allItems: seq<SearchResult>)
    ensures IsSubsequence(SearchResults(query, allItems), allItems)
    ensures forall x :: x in SearchResults(query, allItems) ==> Matches(x, Lower(query))
  {
    SearchResultsSpec(query, allItems);
    if !IsBlank(query) {
      FilterIsSubsequence(allItems, Lower(query));
    }
  }

  /** Searching ignores the case of the query. */
  lemma SearchCaseInsensitive(query: string, allItems: seq<SearchResult>)
    ensures SearchResults(Lower(query), allItems) == SearchResults(query, allItems)
  {
    LowerKeepsBlank(query);
    LowerIdempotent(query);
  }

  /** A string without the first character of `t` cannot contain `t`. */
  lemma MissingCharNotContained(s: string, t: string)
    requires |t| > 0 && t[0] !in s
    ensures !Contains(s, t)
  {
    ContainsIff(s, t);
    assert forall i :: OccursAt(s, t, i) ==> s[i] == t[0];
  }

  /** Lower-casing brings in no 'h' that was not there as 'h' or 'H'. */
  lemma LowerNoH(s: string)
    requires 'h' !in s && 'H' !in s
    ensures 'h' !in Lower(s)
  {
  }

  /** Two entries of the worked example. */
  const HeapWriteup: SearchResult := SearchResult("Heap Exploit Writeup", [], [], Writeup, ["pwn", "heap"])
  const PortfolioSite: SearchResult := SearchResult("Portfolio Site", [], [], Project, ["web"])

  lemma HeapWriteupMatches()
    ensures Matches(HeapWriteup, "heap")
  {
    var tag := HeapWriteup.tags[1];
    assert Lower(tag) == "heap";
    assert StartsWith(Lower(tag), "heap");
  }

  lemma PortfolioSiteMisses()
    ensures !Matches(PortfolioSite, "heap")
  {
    var site := PortfolioSite;
    LowerNoH(site.title);
    LowerNoH(site.description);
    LowerNoH(site.tags[0]);
    MissingCharNotContained(Lower(site.title), "heap");
    MissingCharNotContained(Lower(site.description), "heap");
    MissingCharNotContained(Lower(site.tags[0]), "heap");
  }

  /** "heap" is not blank and already lower-case, so it filters as it is. */
  lemma HeapQueryFilters(items: seq<SearchResult>)
    ensures SearchResults("heap", items) == Filter(items, "heap")
  {
    assert !IsJsWhitespace("heap"[0]);
    assert Lower("heap") == "heap";
  }

  /** The worked example: "heap" finds the entry whose title and tag mention
      it and skips the one that does not. */
  lemma HeapExample()
    ensures SearchResults("heap", [HeapWriteup, PortfolioSite]) == [HeapWriteup]
  {
    HeapQueryFilters([HeapWriteup, PortfolioSite]);
    HeapWriteupMatches();
    PortfolioSiteMisses();
    FilterSingle(HeapWriteup, "heap");
    FilterSingle(PortfolioSite, "heap");
    FilterAppend([HeapWriteup], [PortfolioSite], "heap");
    assert [HeapWriteup] + [PortfolioSite] == [HeapWriteup, PortfolioSite];
  }

  /** The Escape handler closes the modal only while it is open. */
  predicate EscapeCloses(key: string, isOpen: bool)
  {
    key == "Escape" && isOpen
  }

  /** Whether the modal is open after one key press: the handler calls
      `onClose` or does nothing. */
  function AfterKey(isOpen: bool, key: string): bool
  {
    if EscapeCloses(key, isOpen) then false else isOpen
  }

  /** Whether the modal is open after a run of key presses. */
  function AfterKeys(isOpen: bool, keys: seq<string>): bool
    decreases |keys|
  {
    if |keys| == 0 then isOpen else AfterKeys(AfterKey(isOpen, keys[0]), keys[1..])
  }

  /** Keys never open the modal, and it stays open exactly until the first
      Escape. */
  lemma {:induction false} AfterKeysSpec(isOpen: bool, keys: seq<string>)
    ensures AfterKeys(isOpen, keys) <==> isOpen && "Escape" !in keys
    decreases |keys|
  {
    if |keys| > 0 {
      AfterKeysSpec(AfterKey(isOpen, keys[0]), keys[1..]);
      assert keys == [keys[0]] + keys[1..];
    }
  }

  /** The modal's component state. `isOpen` is the parent's property and is
      passed to each effect; `bodyOverflow` is this component's writes to
      `document.body.style.overflow`. */
  class SearchModal {
    var query: string
    var results: seq<SearchResult>
    var allItems: seq<SearchResult>
    var bodyOverflow: string

    /** The results shown belong to the current query and items. */
    ghost predicate Consistent()
      reads this
    {
      results == SearchResults(query, allItems)
    }

    constructor ()
      ensures query == [] && results == [] && allItems == [] && bodyOverflow == []
      ensures Consistent()
    {
      query, results, allItems, bodyOverflow := [], [], [], [];
    }

    /** The collection effect. While open with nothing collected it takes
        the cards of the current page; if the page has none it issues the
        fetch of the home page, whose answer arrives in `HomeArrived`. */
    method Collect(isOpen: bool, pageCards: seq<Card>) returns (fetchIssued: bool)
      requires Consistent()
      modifies this
      ensures Consistent()
      ensures query == old(query) && bodyOverflow == old(bodyOverflow)
      ensures fetchIssued <==> isOpen && old(allItems) == [] && pageCards == []
      ensures allItems == if isOpen && old(allItems) == [] && pageCards != [] then Parsed(pageCards) else old(allItems)
    {
      fetchIssued := false;
      if isOpen && |allItems| == 0 {
        if |pageCards| > 0 {
          var items := ParseCards(pageCards);
          assert items == Parsed(pageCards);
          allItems := items;
          results := SearchResults(query, items);
        } else {
          fetchIssued := true;
        }
      }
    }

    /** The answer to the home-page fetch. A success replaces the items with
        the home page's cards; a failure is only logged and leaves them as
        they are, so the next opening tries again. */
    method HomeArrived(outcome: HomeFetch)
      requires Consistent()
      modifies this
      ensures Consistent()
      ensures query == old(query) && bodyOverflow == old(bodyOverflow)
      ensures allItems == if outcome.Fetched? then Parsed(outcome.cards) else old(allItems)
    {
      if outcome.Fetched? {
        var items := ParseCards(outcome.cards);
        assert items == Parsed(outcome.cards);
        allItems := items;
        results := SearchResults(query, items);
      }
    }

    /** Typing into the input: the query changes and the search effect runs. */
    method Input(value: string)
      modifies this
      ensures Consistent()
      ensures query == value && allItems == old(allItems) && bodyOverflow == old(bodyOverflow)
    {
      query := value;
      results := SearchResults(query, allItems);
    }

    /** `handleClear`: empties the query and the results and keeps the
        modal open and the items collected. */
    method Clear()
      modifies this
      ensures query == [] && results == []
      ensures allItems == old(allItems) && bodyOverflow == old(bodyOverflow)
      ensures Consistent()
    {
      query := [];
      results := [];
    }

    /** The overflow effect: locked while open, released when closed. */
    method OverflowEffect(isOpen: bool)
      modifies this`bodyOverflow
      ensures bodyOverflow == if isOpen then "hidden" else []
    {
      bodyOverflow := if isOpen then "hidden" else [];
    }

    /** The overflow effect's cleanup, run on every change and on unmount. */
    method OverflowCleanup()
      modifies this`bodyOverflow
      ensures bodyOverflow == []
    {
      bodyOverflow := [];
    }
  }
}
