/** The build-time content generator (scripts/FetchContent.py): turning the
    project list and GitHub's answers into project pages, and putting
    frontmatter on the cloned CTF write-ups. Every network answer, the
    parsed `data.json` entries and the file contents are given as values. */
module FetchContent {
  import opened Text
  import opened Json

  /** The request headers: the GitHub token, when set and not empty, adds
      an `Authorization` header after the two fixed ones. */
  function RequestHeaders(token: Option<string>): (headers: seq<(string, string)>)
    ensures 2 <= |headers| <= 3
    ensures headers[..2] == [("User-Agent", "Portfolio-Builder"), ("Accept", "application/vnd.github.v3+json")]
    ensures |headers| == 3 <==> token.Some? && token.value != []
    ensures |headers| == 3 ==> headers[2] == ("Authorization", "token " + token.value)
  {
    var fixed := [("User-Agent", "Portfolio-Builder"), ("Accept", "application/vnd.github.v3+json")];
    if token.Some? && token.value != [] then fixed + [("Authorization", "token " + token.value)] else fixed
  }

  /** `repo.split('/')[-1].lower()`: the repository name, lower-cased. */
  function Slug(repo: string): (slug: string)
    ensures '/' !in slug
    ensures |slug| <= |repo|
  {
    var pieces := Split(repo, '/');
    LastPieceIsSuffix(repo, '/');
    Lower(Last(pieces))
  }

  /** The last piece of a split is the text after the last separator, or
      the whole string when there is no separator. */
  lemma LastPieceIsSuffix(s: string, sep: char)
    ensures var last := Last(Split(s, sep));
      && EndsWith(s, last) && sep !in last
      && (|Split(s, sep)| > 1 ==> |last| < |s| && s[|s| - |last| - 1] == sep)
      && (|Split(s, sep)| == 1 ==> last == s)
  {
    var pieces := Split(s, sep);
    var last := Last(pieces);
    JoinSplit(s, sep);
    if |pieces| > 1 {
      var front := Join(pieces[..|pieces| - 1], [sep]);
      JoinLast(pieces, [sep]);
      assert s == front + [sep] + last;
      assert s[|s| - |last|..] == last;
      assert s[|s| - |last| - 1] == sep;
    }
  }

  /** A join of two or more pieces ends with the separator and the last
      piece. */
  lemma {:induction false} JoinLast(pieces: seq<string>, sep: string)
    requires |pieces| > 1
    ensures Join(pieces, sep) == Join(pieces[..|pieces| - 1], sep) + sep + Last(pieces)
    decreases |pieces|
  {
    var n := |pieces|;
    if n == 2 {
      assert pieces[1..] == [pieces[1]];
      assert pieces[..1] == [pieces[0]];
    } else {
      JoinLast(pieces[1..], sep);
      var init := pieces[..n - 1];
      assert init[1..] == pieces[1..][..n - 2];
      assert Join(init, sep) == init[0] + sep + Join(init[1..], sep);
      assert Join(pieces, sep) == pieces[0] + sep + Join(pieces[1..], sep);
    }
  }

  /** The slug of "owner/name" is the lower-cased name. */
  lemma SlugOfRepo(owner: string, name: string)
    requires '/' !in owner && '/' !in name
    ensures Slug(owner + "/" + name) == Lower(name)
  {
    SplitJoin([owner, name], '/');
    assert Join([owner, name], "/") == owner + "/" + name;
  }

  /** What the generator fetched for one project: the README text (''
      when the fetch failed), the repository metadata, and whether the
      banner download succeeded. */
  datatype MetaFetch = MetaFailed | MetaMalformed | Meta(json: Json)
  datatype ProjectFetch = ProjectFetch(readme: string, meta: MetaFetch, bannerSaved: bool)

  /** One project's fate: skipped, the script stopping on an uncaught
      exception, or a page written under its slug. */
  datatype ProjectOutcome = Skipped | Crashed(error: PyError) | Written(slug: string, document: string)

  const BannerPath: string := "./images/banner.png"

  /** The frontmatter value of `banner`. */
  function BannerField(saved: bool): (b: string)
    ensures b == BannerPath <==> saved
    ensures !saved ==> b == "\"\""
  {
    if saved then BannerPath else "\"\""
  }

  /** `project.get('name', meta.get('name', slug))`: the entry's own name
      when the key is there at all, else GitHub's, else the slug. */
  function Title(project: seq<(string, Json)>, meta: seq<(string, Json)>, slug: string): (title: string)
    ensures Lookup(project, "name").Some? ==> title == PyStr(Lookup(project, "name").value)
    ensures Lookup(project, "name").None? && Lookup(meta, "name").Some? ==> title == PyStr(Lookup(meta, "name").value)
    ensures Lookup(project, "name").None? && Lookup(meta, "name").None? ==> title == slug
  {
    PyStr(GetOr(project, "name", GetOr(meta, "name", JStr(slug))))
  }

  /** `meta.get('description') or 'No description'`. */
  function Description(meta: seq<(string, Json)>): (d: string)
    ensures Lookup(meta, "description").None? ==> d == "No description"
    ensures Lookup(meta, "description").Some? ==>
      d == if Truthy(Lookup(meta, "description").value) then PyStr(Lookup(meta, "description").value) else "No description"
  {
    var v := GetOr(meta, "description", JNull);
    if Truthy(v) then PyStr(v) else "No description"
  }

  /** The README without its first line, lines joined by '\n'. */
  function Body(readme: string): string
  {
    Join(Tail(SplitLines(readme)), "\n")
  }

  /** The frontmatter of a project page. */
  function ProjectFrontmatter(title: string, description: string, url: string, updated: string, topics: string, banner: string): seq<string>
  {
    [ "---",
      QuotedField("title", title),
      QuotedField("description", description),
      QuotedField("url", url),
      QuotedField("updated", updated),
      QuotedField("topics", topics),
      PlainField("banner", banner),
      "---",
      "" ]
  }

  /** A frontmatter line `key: "value"`. */
  function QuotedField(key: string, value: string): string
  {
    key + ": \"" + value + "\""
  }

  /** A frontmatter line `key: value`. */
  function PlainField(key: string, value: string): string
  {
    key + ": " + value
  }

  /** Lines, each followed by '\n'. */
  function Lines(lines: seq<string>): (text: string)
    decreases |lines|
  {
    if |lines| == 0 then [] else lines[0] + "\n" + Lines(lines[1..])
  }

  /** The page of a project: the frontmatter, a blank line, the README
      without its first line, and a final '\n'. */
  function ProjectDocument(title: string, description: string, url: string, updated: string, topics: string, banner: string, readme: string): string
  {
    Lines(ProjectFrontmatter(title, description, url, updated, topics, banner)) + Body(readme) + "\n"
  }

  /** One turn of the loop in `fetch_projects`. */
  function ProcessProject(project: Json, fetch: ProjectFetch): (o: ProjectOutcome)
    ensures !project.JObj? ==> o == Crashed(AttributeError)
    ensures o.Written? <==> (project.JObj? && GetOr(project.members, "url", JStr([])).JStr?
      && fetch.readme != [] && fetch.meta.Meta? && fetch.meta.json.JObj?
      && PyJoin(", ", GetOr(fetch.meta.json.members, "topics", JArr([]))).Ok?)
    ensures o.Skipped? <==> (project.JObj? && GetOr(project.members, "url", JStr([])).JStr?
      && (fetch.readme == [] || fetch.meta == MetaFailed))
    ensures o.Crashed? && project.JObj? && GetOr(project.members, "url", JStr([])).JStr? && fetch.meta == MetaMalformed
      ==> o.error == ValueError
    ensures o.Written? ==> o.document == ProjectDocument(
      Title(project.members, fetch.meta.json.members, o.slug),
      Description(fetch.meta.json.members),
      PyStr(GetOr(fetch.meta.json.members, "html_url", JStr([]))),
      PyStr(GetOr(fetch.meta.json.members, "updated_at", JStr([]))),
      PyJoin(", ", GetOr(fetch.meta.json.members, "topics", JArr([]))).value,
      BannerField(fetch.bannerSaved && Truthy(GetOr(project.members, "banner", JStr([]))) && GetOr(project.members, "banner", JStr([])).JStr?),
      fetch.readme)
    ensures o.Written? ==> (project.JObj? && GetOr(project.members, "url", JStr([])).JStr?
      && o.slug == Slug(GetOr(project.members, "url", JStr([])).s))
    ensures project.JObj? && GetOr(project.members, "url", JStr([])).JStr? && (fetch.readme == [] || fetch.meta == MetaFailed)
      ==> o == Skipped
  {
    if !project.JObj? then Crashed(AttributeError)
    else
      var repo := GetOr(project.members, "url", JStr([]));
      if !repo.JStr? then Crashed(AttributeError)
      else
        var bannerUrl := GetOr(project.members, "banner", JStr([]));
        var slug := Slug(repo.s);
        if fetch.readme == [] then Skipped
        else
          match fetch.meta
          case MetaFailed => Skipped
          case MetaMalformed => Crashed(ValueError)
          case Meta(meta) =>
            if !meta.JObj? then Crashed(AttributeError)
            else
              var m := meta.members;
              var title := Title(project.members, m, slug);
              var description := Description(m);
              var url := PyStr(GetOr(m, "html_url", JStr([])));
              var updated := PyStr(GetOr(m, "updated_at", JStr([])));
              match PyJoin(", ", GetOr(m, "topics", JArr([])))
              case Raised(e) => Crashed(e)
              case Ok(topics) =>
                var banner := BannerField(Truthy(bannerUrl) && bannerUrl.JStr? && fetch.bannerSaved);
                Written(slug, ProjectDocument(title, description, url, updated, topics, banner, fetch.readme))
  }

  /** GitHub's topics, a list of strings, are joined with ", ". */
  lemma TopicsJoined(topics: seq<string>)
    ensures PyJoin(", ", JArr(seq(|topics|, i requires 0 <= i < |topics| => JStr(topics[i])))) == Ok(Join(topics, ", "))
  {
    var items := seq(|topics|, i requires 0 <= i < |topics| => JStr(topics[i]));
    assert forall i :: 0 <= i < |items| ==> items[i].JStr? && items[i].s == topics[i];
    var r := JoinItems(JArr(items));
    assert r.Ok? && |r.value| == |topics|;
    assert forall i :: 0 <= i < |topics| ==> r.value[i] == topics[i];
    assert r.value == topics;
  }

  /** A page has the frontmatter lines, then the body lines. */
  lemma {:induction false} LinesSplit(lines: seq<string>, rest: string)
    requires forall i :: 0 <= i < |lines| ==> HasNoLineBreak(lines[i])
    ensures SplitLines(Lines(lines) + rest) == lines + SplitLines(rest)
    decreases |lines|
  {
    if |lines| > 0 {
      var tail := Lines(lines[1..]) + rest;
      calc {
        SplitLines(Lines(lines) + rest);
        { assert Lines(lines) + rest == lines[0] + "\n" + tail; }
        SplitLines(lines[0] + "\n" + tail);
        { SplitLinesCons(lines[0], tail); }
        [lines[0]] + SplitLines(tail);
        { LinesSplit(lines[1..], rest); }
        [lines[0]] + (lines[1..] + SplitLines(rest));
        { assert lines == [lines[0]] + lines[1..]; }
        lines + SplitLines(rest);
      }
    } else {
      assert Lines(lines) + rest == rest;
    }
  }

  /** When no value holds a line break, the page reads back line by line
      as the nine frontmatter lines followed by the lines of the body. */
  lemma ProjectDocumentLines(title: string, description: string, url: string, updated: string, topics: string, banner: string, readme: string)
    requires HasNoLineBreak(title) && HasNoLineBreak(description) && HasNoLineBreak(url)
    requires HasNoLineBreak(updated) && HasNoLineBreak(topics) && HasNoLineBreak(banner)
    ensures var doc := ProjectDocument(title, description, url, updated, topics, banner, readme);
      && SplitLines(doc) == ProjectFrontmatter(title, description, url, updated, topics, banner) + SplitLines(Body(readme) + "\n")
      && EndsWith(doc, "\n")
  {
    var fm := ProjectFrontmatter(title, description, url, updated, topics, banner);
    FieldOneLine("title", title);
    FieldOneLine("description", description);
    FieldOneLine("url", url);
    FieldOneLine("updated", updated);
    FieldOneLine("topics", topics);
    FieldOneLine("banner", banner);
    LinesSplit(fm, Body(readme) + "\n");
    assert ProjectDocument(title, description, url, updated, topics, banner, readme) == Lines(fm) + (Body(readme) + "\n");
  }

  /** A field whose key and value are on one line is one line. */
  lemma FieldOneLine(key: string, value: string)
    requires Printable(key) && HasNoLineBreak(value)
    ensures HasNoLineBreak(QuotedField(key, value)) && HasNoLineBreak(PlainField(key, value))
  {
    PrintableOneLine(key);
    PrintableOneLine(": \"");
    PrintableOneLine(": ");
    PrintableOneLine("\"");
    OneLineConcat(key + ": \"", value);
    OneLineConcat(key + ": \"" + value, "\"");
    OneLineConcat(key + ": ", value);
    OneLineConcat(key, ": \"");
    OneLineConcat(key, ": ");
  }

  /** Two pieces without line breaks make a piece without line breaks. */
  lemma OneLineConcat(a: string, b: string)
    requires HasNoLineBreak(a) && HasNoLineBreak(b)
    ensures HasNoLineBreak(a + b)
  {
    forall k | 0 <= k < |a + b| ensures !IsLineBreak((a + b)[k]) {
      if k < |a| {
        assert (a + b)[k] == a[k];
      } else {
        assert (a + b)[k] == b[k - |a|];
      }
    }
  }

  /** For a README whose only line boundary is '\n', the body is the
      README after its first line, less one final '\n'. */
  lemma BodyDropsFirstLine(first: string, rest: string)
    requires HasNoLineBreak(first) && OnlyNewlines(rest)
    ensures Body(first + "\n" + rest) + (if EndsWith(rest, "\n") then "\n" else "") == rest
  {
    SplitLinesCons(first, rest);
    JoinSplitLines(rest);
    assert Tail([first] + SplitLines(rest)) == SplitLines(rest);
  }

  /** For a README whose first line ends in '\r\n', the body is the
      rest's lines joined with '\n': every boundary becomes '\n' and a
      final one is dropped. */
  lemma BodyDropsFirstLineCrlf(first: string, rest: string)
    requires HasNoLineBreak(first)
    ensures Body(first + "\r\n" + rest) == Join(SplitLines(rest), "\n")
  {
    SplitLinesCrlf(first, rest);
    assert Tail([first] + SplitLines(rest)) == SplitLines(rest);
  }

  /** A README written with '\r\n' comes out with '\n' only. */
  lemma CrlfBody(title: string, x: string, y: string)
    requires HasNoLineBreak(title) && HasNoLineBreak(x) && HasNoLineBreak(y)
    ensures Body(title + "\r\n" + x + "\r\n" + y + "\r\n") == x + "\n" + y
  {
    var rest := x + "\r\n" + (y + "\r\n" + "");
    assert title + "\r\n" + x + "\r\n" + y + "\r\n" == title + "\r\n" + rest;
    BodyDropsFirstLineCrlf(title, rest);
    SplitLinesCrlf(x, y + "\r\n" + "");
    SplitLinesCrlf(y, "");
    assert SplitLines(rest) == [x, y];
    JoinCons(x, [y], "\n");
  }

  /** The project pages after the loop, keyed by slug, and the exception
      that stopped the script, if any. */
  datatype Pages = Pages(documents: map<string, string>, crash: Option<PyError>)

  /** The outcome of each entry of `data.json`, given what was fetched for
      it. */
  function Outcomes(projects: seq<Json>, fetches: seq<ProjectFetch>): (os: seq<ProjectOutcome>)
    requires |fetches| == |projects|
    ensures |os| == |projects|
    ensures forall i :: 0 <= i < |os| ==> os[i] == ProcessProject(projects[i], fetches[i])
  {
    seq(|projects|, i requires 0 <= i < |projects| => ProcessProject(projects[i], fetches[i]))
  }

  /** `fetch_projects` over the outcomes of the entries, in order: a page
      is written under its slug, replacing any earlier one, until an
      uncaught exception stops the run. */
  function Apply(documents: map<string, string>, outcomes: seq<ProjectOutcome>): Pages
    decreases |outcomes|
  {
    if |outcomes| == 0 then Pages(documents, None)
    else
      match outcomes[0]
      case Skipped => Apply(documents, outcomes[1..])
      case Crashed(e) => Pages(documents, Some(e))
      case Written(slug, doc) => Apply(documents[slug := doc], outcomes[1..])
  }

  /** The run over two stretches of entries is the run over the first,
      then, unless it crashed, the run over the second from its pages. */
  lemma {:induction false} ApplyAppend(documents: map<string, string>, a: seq<ProjectOutcome>, b: seq<ProjectOutcome>)
    ensures var first := Apply(documents, a);
      Apply(documents, a + b) == if first.crash.Some? then first else Apply(first.documents, b)
    decreases |a|
  {
    if |a| == 0 {
      assert a + b == b;
    } else {
      assert (a + b)[0] == a[0] && (a + b)[1..] == a[1..] + b;
      match a[0]
      case Skipped => ApplyAppend(documents, a[1..], b);
      case Crashed(e) =>
      case Written(slug, doc) => ApplyAppend(documents[slug := doc], a[1..], b);
    }
  }

  /** An exception stops the run: the entries after it change nothing. */
  lemma CrashStops(documents: map<string, string>, a: seq<ProjectOutcome>, e: PyError, b: seq<ProjectOutcome>)
    requires Apply(documents, a).crash.None?
    ensures Apply(documents, a + [Crashed(e)] + b) == Pages(Apply(documents, a).documents, Some(e))
  {
    ApplyAppend(documents, a, [Crashed(e)] + b);
    assert a + [Crashed(e)] + b == a + ([Crashed(e)] + b);
  }

  predicate Writes(o: ProjectOutcome, slug: string)
  {
    o.Written? && o.slug == slug
  }

  /** Pages whose slug no entry writes stay as they were. */
  lemma {:induction false} ApplyKeeps(documents: map<string, string>, outcomes: seq<ProjectOutcome>, slug: string)
    requires forall i :: 0 <= i < |outcomes| ==> !Writes(outcomes[i], slug)
    ensures var after := Apply(documents, outcomes).documents;
      (slug in after <==> slug in documents) && (slug in documents ==> after[slug] == documents[slug])
    decreases |outcomes|
  {
    if |outcomes| > 0 {
      assert !Writes(outcomes[0], slug);
      var rest := outcomes[1..];
      assert forall i :: 0 <= i < |rest| ==> rest[i] == outcomes[i + 1];
      match outcomes[0]
      case Skipped => ApplyKeeps(documents, rest, slug);
      case Crashed(e) =>
      case Written(s, doc) => ApplyKeeps(documents[s := doc], rest, slug);
    }
  }

  /** Without a crash, a slug's page is the one from the last entry that
      wrote it. */
  lemma {:induction false} LastWriteWins(documents: map<string, string>, outcomes: seq<ProjectOutcome>, i: int)
    requires 0 <= i < |outcomes| && outcomes[i].Written?
    requires Apply(documents, outcomes).crash.None?
    requires forall j :: i < j < |outcomes| ==> !Writes(outcomes[j], outcomes[i].slug)
    ensures var after := Apply(documents, outcomes).documents;
      outcomes[i].slug in after && after[outcomes[i].slug] == outcomes[i].document
    decreases |outcomes|
  {
    var rest := outcomes[1..];
    assert forall j :: 0 <= j < |rest| ==> rest[j] == outcomes[j + 1];
    var next := if outcomes[0].Written? then documents[outcomes[0].slug := outcomes[0].document] else documents;
    assert !outcomes[0].Crashed?;
    assert Apply(documents, outcomes) == Apply(next, rest);
    if i == 0 {
      ApplyKeeps(next, rest, outcomes[0].slug);
    } else {
      LastWriteWins(next, rest, i - 1);
    }
  }

  /** No entry is written unless its README and metadata were both there. */
  lemma {:induction false} WrittenNeedsReadme(documents: map<string, string>, projects: seq<Json>, fetches: seq<ProjectFetch>, slug: string)
    requires |fetches| == |projects|
    requires slug !in documents
    requires forall i :: 0 <= i < |projects| ==> fetches[i].readme == [] || fetches[i].meta.MetaFailed?
    ensures slug !in Apply(documents, Outcomes(projects, fetches)).documents
  {
    var os := Outcomes(projects, fetches);
    forall i | 0 <= i < |os| ensures !Writes(os[i], slug) {
    }
    ApplyKeeps(documents, os, slug);
  }

  /** The commits query for one write-up folder: nothing fetched, text
      that `json.loads` rejects, or the parsed answer. */
  datatype CommitsFetch = CommitsFailed | CommitsMalformed | Commits(json: Json)

  /** `commits[0]['commit']['committer']['date']`. */
  function FirstCommitDate(commits: Json): PyResult<Json>
  {
    match First(commits)
    case Raised(e) => Raised(e)
    case Ok(first) =>
      match Member(first, "commit")
      case Raised(e) => Raised(e)
      case Ok(commit) =>
        match Member(commit, "committer")
        case Raised(e) => Raised(e)
        case Ok(committer) => Member(committer, "date")
  }

  /** The `updated` value of a write-up: the first commit's committer
      date, or '' when nothing came back, the text is not JSON, the list is
      empty, or a key or index is missing. Any other exception (a
      `TypeError` from a value of the wrong kind) is not caught. */
  function UpdatedDate(fetch: CommitsFetch): (r: PyResult<string>)
    ensures fetch.CommitsFailed? || fetch.CommitsMalformed? ==> r == Ok([])
    ensures fetch == Commits(JArr([])) ==> r == Ok([])
    ensures r.Raised? ==> r.error == TypeError
  {
    match fetch
    case CommitsFailed => Ok([])
    case CommitsMalformed => Ok([])
    case Commits(commits) =>
      if !Truthy(commits) then Ok([])
      else
        match Len(commits)
        case Raised(e) => Raised(e)
        case Ok(n) =>
          if n == 0 then Ok([])
          else
            match FirstCommitDate(commits)
            case Ok(date) => Ok(PyStr(date))
            case Raised(e) => if e == KeyError || e == IndexError then Ok([]) else Raised(e)
  }

  /** A GitHub-shaped answer, whatever else its objects hold: the date is
      the first commit's `commit.committer.date`, written as `str()` does. */
  lemma UpdatedFromFirstCommit(first: seq<(string, Json)>, commit: seq<(string, Json)>,
                               committer: seq<(string, Json)>, date: Json, others: seq<Json>)
    requires Lookup(first, "commit") == Some(JObj(commit))
    requires Lookup(commit, "committer") == Some(JObj(committer))
    requires Lookup(committer, "date") == Some(date)
    ensures UpdatedDate(Commits(JArr([JObj(first)] + others))) == Ok(PyStr(date))
  {
    var commits := JArr([JObj(first)] + others);
    assert Truthy(commits) && Len(commits).Ok? && Len(commits).value > 0;
    assert FirstCommitDate(commits) == Ok(date) by {
      assert First(commits) == Ok(JObj(first));
      assert Member(JObj(first), "commit") == Ok(JObj(commit));
      assert Member(JObj(commit), "committer") == Ok(JObj(committer));
    }
  }

  /** A first commit missing `commit`, `committer` or `date` gives ''. */
  lemma UpdatedMissingKey(first: seq<(string, Json)>, commit: seq<(string, Json)>,
                          committer: seq<(string, Json)>, others: seq<Json>)
    ensures Lookup(first, "commit").None? ==>
      UpdatedDate(Commits(JArr([JObj(first)] + others))) == Ok([])
    ensures Lookup(first, "commit") == Some(JObj(commit)) && Lookup(commit, "committer").None? ==>
      UpdatedDate(Commits(JArr([JObj(first)] + others))) == Ok([])
    ensures (Lookup(first, "commit") == Some(JObj(commit)) && Lookup(commit, "committer") == Some(JObj(committer))
             && Lookup(committer, "date").None?) ==>
      UpdatedDate(Commits(JArr([JObj(first)] + others))) == Ok([])
  {
    assert Truthy(JArr([JObj(first)] + others));
  }

  /** A `commit` that is not an object stops the script with a
      `TypeError`, which is not caught. */
  lemma UpdatedWrongKind(first: seq<(string, Json)>, commit: Json, others: seq<Json>)
    requires Lookup(first, "commit") == Some(commit) && !commit.JObj?
    ensures UpdatedDate(Commits(JArr([JObj(first)] + others))) == Raised(TypeError)
  {
    assert Truthy(JArr([JObj(first)] + others));
  }

  /** So does a `committer` that is not an object. */
  lemma UpdatedCommitterWrongKind(first: seq<(string, Json)>, commit: seq<(string, Json)>,
                                  committer: Json, others: seq<Json>)
    requires Lookup(first, "commit") == Some(JObj(commit))
    requires Lookup(commit, "committer") == Some(committer) && !committer.JObj?
    ensures UpdatedDate(Commits(JArr([JObj(first)] + others))) == Raised(TypeError)
  {
    assert Truthy(JArr([JObj(first)] + others));
  }

  /** The description every write-up gets, followed by its folder name. */
  const WriteupBlurb: string := "My write up for some challenges from "

  lemma BlurbOneLine()
    ensures HasNoLineBreak(WriteupBlurb)
  {
    assert Printable(WriteupBlurb);
    PrintableOneLine(WriteupBlurb);
  }

  /** The frontmatter of a write-up, titled after its folder. */
  function WriteupFrontmatter(folder: string, updated: string, hasBanner: bool): seq<string>
  {
    [ "---",
      QuotedField("title", folder),
      QuotedField("description", WriteupBlurb + folder),
      QuotedField("updated", updated),
      PlainField("banner", BannerField(hasBanner)),
      "---",
      "" ]
  }

  /** A write-up page: its frontmatter followed by the original content,
      unchanged. */
  function WriteupDocument(folder: string, updated: string, hasBanner: bool, content: string): (doc: string)
    ensures EndsWith(doc, content)
    ensures StartsWith(doc, "---\n")
  {
    var head := Lines(WriteupFrontmatter(folder, updated, hasBanner));
    assert head == "---" + "\n" + Lines(WriteupFrontmatter(folder, updated, hasBanner)[1..]);
    assert (head + content)[|head + content| - |content|..] == content;
    head + content
  }

  /** When the folder name and the date hold no line break, the write-up
      reads back line by line as its seven frontmatter lines followed by
      the lines of the original content. */
  lemma WriteupDocumentLines(folder: string, updated: string, hasBanner: bool, content: string)
    requires HasNoLineBreak(folder) && HasNoLineBreak(updated)
    ensures SplitLines(WriteupDocument(folder, updated, hasBanner, content))
      == WriteupFrontmatter(folder, updated, hasBanner) + SplitLines(content)
  {
    FieldOneLine("title", folder);
    BlurbOneLine();
    OneLineConcat(WriteupBlurb, folder);
    FieldOneLine("description", WriteupBlurb + folder);
    FieldOneLine("updated", updated);
    assert Printable(BannerField(hasBanner));
    PrintableOneLine(BannerField(hasBanner));
    FieldOneLine("banner", BannerField(hasBanner));
    LinesSplit(WriteupFrontmatter(folder, updated, hasBanner), content);
  }

  /** What the generator knows about one cloned write-up folder. */
  datatype WriteupFolder = WriteupFolder(name: string, commits: CommitsFetch, hasBanner: bool)

  /** One turn of the frontmatter loop in `clone_writeups`. */
  function ProcessWriteup(folder: WriteupFolder, content: string): (r: PyResult<string>)
    ensures r.Ok? ==> EndsWith(r.value, content)
    ensures r.Ok? ==> (UpdatedDate(folder.commits).Ok? &&
      r.value == WriteupDocument(folder.name, UpdatedDate(folder.commits).value, folder.hasBanner, content))
    ensures r.Raised? <==> UpdatedDate(folder.commits).Raised?
  {
    match UpdatedDate(folder.commits)
    case Raised(e) => Raised(e)
    case Ok(updated) => Ok(WriteupDocument(folder.name, updated, folder.hasBanner, content))
  }

  /** The write-up files after the loop, keyed by folder, and the
      exception that stopped the script, if any. */
  function AddAll(documents: map<string, string>, folders: seq<WriteupFolder>): Pages
    requires forall i :: 0 <= i < |folders| ==> folders[i].name in documents
    decreases |folders|
  {
    if |folders| == 0 then Pages(documents, None)
    else
      match ProcessWriteup(folders[0], documents[folders[0].name])
      case Raised(e) => Pages(documents, Some(e))
      case Ok(doc) => AddAll(documents[folders[0].name := doc], folders[1..])
  }

  predicate DistinctNames(folders: seq<WriteupFolder>)
  {
    forall i, j :: 0 <= i < j < |folders| ==> folders[i].name != folders[j].name
  }

  /** When no exception stops the loop, every listed folder's file is its
      frontmatter followed by the content it had, and no other file
      changes. */
  lemma {:induction false} AddAllSpec(documents: map<string, string>, folders: seq<WriteupFolder>)
    requires forall i :: 0 <= i < |folders| ==> folders[i].name in documents
    requires DistinctNames(folders)
    requires AddAll(documents, folders).crash.None?
    ensures var after := AddAll(documents, folders).documents;
      && after.Keys == documents.Keys
      && (forall i :: 0 <= i < |folders| ==> ProcessWriteup(folders[i], documents[folders[i].name]) == Ok(after[folders[i].name]))
      && (forall k :: k in documents && (forall i :: 0 <= i < |folders| ==> folders[i].name != k) ==> after[k] == documents[k])
    decreases |folders|
  {
    if |folders| > 0 {
      var f := folders[0];
      var doc := ProcessWriteup(f, documents[f.name]).value;
      var next := documents[f.name := doc];
      var rest := folders[1..];
      assert forall i :: 0 <= i < |rest| ==> rest[i] == folders[i + 1];
      AddAllSpec(next, rest);
      var after := AddAll(documents, folders).documents;
      assert after == AddAll(next, rest).documents;
      forall i | 0 <= i < |folders|
        ensures ProcessWriteup(folders[i], documents[folders[i].name]) == Ok(after[folders[i].name])
      {
        if i > 0 {
          assert folders[i] == rest[i - 1];
          assert next[folders[i].name] == documents[folders[i].name];
        }
      }
    }
  }

  /** The project pages, keyed by slug (`src/content/projects/<slug>/index.md`). */
  class ProjectsDir {
    var documents: map<string, string>

    constructor (documents: map<string, string>)
      ensures this.documents == documents
    {
      this.documents := documents;
    }

    /** `fetch_projects`. */
    method FetchProjects(projects: seq<Json>, fetches: seq<ProjectFetch>) returns (crash: Option<PyError>)
      requires |fetches| == |projects|
      modifies this
      ensures Pages(documents, crash) == Apply(old(documents), Outcomes(projects, fetches))
    {
      ghost var outcomes := Outcomes(projects, fetches);
      crash := None;
      var i := 0;
      while i < |projects|
        invariant 0 <= i <= |projects|
        invariant Apply(old(documents), outcomes) == Apply(documents, outcomes[i..])
      {
        assert outcomes[i..][0] == outcomes[i] && outcomes[i..][1..] == outcomes[i + 1..];
        var outcome := ProcessProject(projects[i], fetches[i]);
        assert outcome == outcomes[i];
        match outcome {
          case Skipped =>
          case Crashed(e) =>
            crash := Some(e);
            return;
          case Written(slug, doc) =>
            documents := documents[slug := doc];
        }
        i := i + 1;
      }
    }
  }

  /** The write-up files, keyed by folder (`src/content/writeups/<folder>/index.md`). */
  class WriteupsDir {
    var documents: map<string, string>

    constructor (documents: map<string, string>)
      ensures this.documents == documents
    {
      this.documents := documents;
    }

    /** The frontmatter loop of `clone_writeups`, over the folders the
        glob lists. */
    method AddFrontmatter(folders: seq<WriteupFolder>) returns (crash: Option<PyError>)
      requires forall i :: 0 <= i < |folders| ==> folders[i].name in documents
      modifies this
      ensures Pages(documents, crash) == AddAll(old(documents), folders)
    {
      crash := None;
      var i := 0;
      while i < |folders|
        invariant 0 <= i <= |folders|
        invariant forall j :: 0 <= j < |folders| ==> folders[j].name in documents
        invariant AddAll(old(documents), folders) == AddAll(documents, folders[i..])
      {
        assert folders[i..][1..] == folders[i + 1..];
        var f := folders[i];
        var content := documents[f.name];
        match ProcessWriteup(f, content) {
          case Raised(e) =>
            crash := Some(e);
            return;
          case Ok(doc) =>
            documents := documents[f.name := doc];
        }
        i := i + 1;
      }
    }
  }
}
