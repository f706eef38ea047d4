/** The article's table of contents (src/components/TableOfContents.tsx):
    heading records taken from the article, which entry is active, and what
    is drawn. */
module TableOfContents {
  import opened Text

  /** One element inside the article, as the extraction sees it: its tag
      name, its `id` and its `textContent` (which may be null). */
  datatype Element = Element(tagName: string, id: string, textContent: Option<string>)

  datatype Heading = Heading(id: string, text: string, level: int)

  /** The tag names `querySelectorAll('h1, h2, h3, h4, h5, h6')` selects. */
  predicate IsHeadingTag(tag: string)
  {
    |tag| == 2 && (tag[0] == 'h' || tag[0] == 'H') && '1' <= tag[1] <= '6'
  }

  /** `parseInt(tagName.substring(1))`: the digit after the letter. */
  function LevelOf(tag: string): (level: int)
    requires IsHeadingTag(tag)
    ensures 1 <= level <= 6
    ensures tag[1] as int == '0' as int + level
  {
    tag[1] as int - '0' as int
  }

  /** `textContent?.replace('#', '').trim() || ''`: the first '#' goes, then
      the surrounding whitespace; a null text is ''. */
  function HeadingText(content: Option<string>): string
  {
    if content.None? then [] else Trim(RemoveFirst(content.value, '#'))
  }

  /** A null text gives ''; text without '#' is trimmed as it is; the
      result never starts or ends with whitespace. */
  lemma HeadingTextSpec(content: Option<string>)
    ensures content.None? ==> HeadingText(content) == []
    ensures content.Some? && '#' !in content.value ==> HeadingText(content) == Trim(content.value)
    ensures HeadingText(content) != [] ==>
      !IsJsWhitespace(HeadingText(content)[0]) && !IsJsWhitespace(HeadingText(content)[|HeadingText(content)| - 1])
  {
    if content.Some? {
      var t := Trim(RemoveFirst(content.value, '#'));
      assert HeadingText(content) == t;
      if '#' !in content.value {
        assert RemoveFirst(content.value, '#') == content.value;
      }
    }
  }

  /** With a '#' in the text, the first one goes and the rest is trimmed. */
  lemma HeadingTextHash(c: string)
    requires '#' in c
    ensures exists k :: && 0 <= k < |c| && c[k] == '#' && '#' !in c[..k]
                        && HeadingText(Some(c)) == Trim(c[..k] + c[k + 1..])
  {
    RemoveFirstAt(c, '#');
    var k := IndexOf(c, '#');
    assert c[k] == '#' && '#' !in c[..k];
    assert HeadingText(Some(c)) == Trim(c[..k] + c[k + 1..]);
  }

  function HeadingOf(e: Element): (h: Heading)
    requires IsHeadingTag(e.tagName)
    ensures h.id == e.id && 1 <= h.level <= 6
    ensures h.text == HeadingText(e.textContent) && h.level == LevelOf(e.tagName)
  {
    Heading(e.id, HeadingText(e.textContent), LevelOf(e.tagName))
  }

  /** The records one element contributes: one for a heading, none for
      anything else. */
  function Records(e: Element): seq<Heading>
  {
    if IsHeadingTag(e.tagName) then [HeadingOf(e)] else []
  }

  /** The concatenation of `f` over `s`, in order. */
  function ConcatMap<T, U>(f: T -> seq<U>, s: seq<T>): seq<U>
    decreases |s|
  {
    if |s| == 0 then [] else f(s[0]) + ConcatMap(f, s[1..])
  }

  /** Mapping over two stretches concatenates their images. */
  lemma {:induction false} ConcatMapAppend<T, U>(f: T -> seq<U>, a: seq<T>, b: seq<T>)
    ensures ConcatMap(f, a + b) == ConcatMap(f, a) + ConcatMap(f, b)
    decreases |a|
  {
    if |a| == 0 {
      assert a + b == b;
    } else {
      ConcatMapAppend(f, a[1..], b);
      assert (a + b)[0] == a[0] && (a + b)[1..] == a[1..] + b;
    }
  }

  /** The heading records of the article's elements, in document order. */
  function Headings(elements: seq<Element>): seq<Heading>
  {
    ConcatMap(Records, elements)
  }

  /** No more records than elements, and every level between 1 and 6. */
  lemma {:induction false} HeadingsLevels(elements: seq<Element>)
    ensures |Headings(elements)| <= |elements|
    ensures forall i :: 0 <= i < |Headings(elements)| ==> 1 <= Headings(elements)[i].level <= 6
    decreases |elements|
  {
    if |elements| > 0 {
      HeadingsLevels(elements[1..]);
    }
  }

  /** The records of two stretches of the article are those of the first
      followed by those of the second: document order is kept. */
  lemma HeadingsAppend(a: seq<Element>, b: seq<Element>)
    ensures Headings(a + b) == Headings(a) + Headings(b)
  {
    ConcatMapAppend(Records, a, b);
  }

  /** Exactly one record per heading element and none for anything else. */
  lemma HeadingsSingle(e: Element)
    ensures Headings([e]) == if IsHeadingTag(e.tagName) then [HeadingOf(e)] else []
  {
    assert [e][1..] == [];
    assert Headings([e]) == Records(e) + ConcatMap(Records, []);
  }

  /** Number of heading elements. */
  function HeadingCount(elements: seq<Element>): nat
    decreases |elements|
  {
    if |elements| == 0 then 0
    else (if IsHeadingTag(elements[0].tagName) then 1 else 0) + HeadingCount(elements[1..])
  }

  lemma {:induction false} HeadingsCount(elements: seq<Element>)
    ensures |Headings(elements)| == HeadingCount(elements)
    decreases |elements|
  {
    if |elements| > 0 {
      HeadingsCount(elements[1..]);
    }
  }

  /** The indentation in pixels of a heading of the given level. */
  function Indent(level: int): (px: int)
    requires 1 <= level <= 6
    ensures 0 <= px <= 100 && px % 20 == 0
    ensures level == 1 <==> px == 0
    ensures px == (level - 1) * 20
  {
    (level - 1) * 20
  }

  /** Each level down is indented 20 pixels further. */
  lemma IndentStep(level: int)
    requires 1 <= level < 6
    ensures Indent(level + 1) == Indent(level) + 20
  {
  }

  /** One observer entry: the observed heading's id and whether it now
      intersects the root. */
  datatype Entry = Entry(targetId: string, isIntersecting: bool)

  /** The active id after a batch, read from the end: the id of the last
      intersecting entry, or the current one when none intersects. */
  function AfterBatch(entries: seq<Entry>, current: string): (r: string)
    ensures (forall i :: 0 <= i < |entries| ==> !entries[i].isIntersecting) ==> r == current
    ensures (exists i :: 0 <= i < |entries| && entries[i].isIntersecting) ==>
      exists k :: 0 <= k < |entries| && entries[k].isIntersecting && r == entries[k].targetId &&
        forall j :: k < j < |entries| ==> !entries[j].isIntersecting
    decreases |entries|
  {
    if |entries| == 0 then current
    else
      var last := entries[|entries| - 1];
      if last.isIntersecting then last.targetId
      else AfterBatch(entries[..|entries| - 1], current)
  }

  /** One table-of-contents line as drawn. */
  datatype Item = Item(href: string, text: string, indent: int, active: bool)

  /** Nothing is drawn without headings; otherwise one line per heading, in
      order, active exactly when its id is the active id. */
  function View(headings: seq<Heading>, activeId: string): (v: Option<seq<Item>>)
    requires forall i :: 0 <= i < |headings| ==> 1 <= headings[i].level <= 6
    ensures v.None? <==> headings == []
    ensures v.Some? ==> |v.value| == |headings|
    ensures v.Some? ==> forall i :: 0 <= i < |headings| ==>
      && v.value[i].href == "#" + headings[i].id
      && v.value[i].text == headings[i].text
      && v.value[i].indent == Indent(headings[i].level)
      && (v.value[i].active <==> headings[i].id == activeId)
  {
    if headings == [] then None
    else Some(seq(|headings|, i requires 0 <= i < |headings| =>
      var h := headings[i];
      Item("#" + h.id, h.text, Indent(h.level), h.id == activeId)))
  }

  /** The component's state; `urlHash` is what `history.pushState` last
      wrote into the address bar. */
  class TableOfContents {
    var headings: seq<Heading>
    var activeId: string
    var urlHash: string

    ghost predicate Valid()
      reads this
    {
      forall i :: 0 <= i < |headings| ==> 1 <= headings[i].level <= 6
    }

    constructor (urlHash: string)
      ensures headings == [] && activeId == [] && this.urlHash == urlHash
      ensures Valid()
    {
      headings, activeId := [], [];
      this.urlHash := urlHash;
    }

    /** The mount effect: without an `article` nothing happens; otherwise
        the records of its headings are kept. */
    method Mount(article: Option<seq<Element>>)
      modifies this`headings
      ensures Valid()
      ensures headings == if article.Some? then Headings(article.value) else old(headings)
      requires Valid()
    {
      if article.Some? {
        HeadingsLevels(article.value);
        headings := Headings(article.value);
      }
    }

    /** The observer callback: each intersecting entry in turn becomes
        active. */
    method Observe(entries: seq<Entry>)
      modifies this`activeId
      ensures activeId == AfterBatch(entries, old(activeId))
    {
      var i := 0;
      while i < |entries|
        invariant 0 <= i <= |entries|
        invariant activeId == AfterBatch(entries[..i], old(activeId))
      {
        if entries[i].isIntersecting {
          activeId := entries[i].targetId;
        }
        assert entries[..i + 1][..i] == entries[..i];
        i := i + 1;
      }
      assert entries[..i] == entries;
    }

    /** `handleClick` on the entry for `id`. `target` is the top of the
        element with that id relative to the viewport, if there is one. The
        result is where the page is scrolled to: 100 pixels above the
        heading when it is above the viewport, 35 otherwise. */
    method Click(id: string, target: Option<int>, pageYOffset: int) returns (scrollTo: Option<int>)
      modifies this`activeId, this`urlHash
      ensures target.None? ==> scrollTo.None? && activeId == old(activeId) && urlHash == old(urlHash)
      ensures target.Some? ==> activeId == id && urlHash == "#" + id
      ensures target.Some? ==> scrollTo == Some(target.value + pageYOffset - (if target.value < 0 then 100 else 35))
    {
      scrollTo := None;
      if target.Some? {
        var elementTop := target.value;
        var yOffset := if elementTop < 0 then -100 else -35;
        scrollTo := Some(target.value + pageYOffset + yOffset);
        urlHash := "#" + id;
        activeId := id;
      }
    }

    function Render(): Option<seq<Item>>
      reads this
      requires Valid()
    {
      View(headings, activeId)
    }
  }
}
