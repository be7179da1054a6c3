/**
 `_parse_html_table_of_contents` and `TableOfContents` of mkdocs/toc.py: the
 line-driven builder that folds the lines of a generated table-of-contents
 fragment into a forest of `AnchorLink` entries.

 Each line is run through a fresh `TOCParser` (`Feed`). A line with a
 non-empty anchor title and an `href` becomes an entry, attached under the
 innermost open parent or at top level, and it opens a new parent when the
 raw line ends with `<ul>`. A title-less line starting with `</ul>` closes
 the innermost parent, if there is one. Everything else is ignored.
 */
module Toc {
  import opened Wrappers
  import opened Text
  import opened TocParser
  import opened AnchorLinks

  /** One line of the fragment: its raw text and the tokenizer callbacks it produces. */
  datatype Line = Line(raw: string, events: seq<Event>)

  /** What a line asks of the builder. */
  datatype Action =
    | AddLink(title: string, url: Option<string>, opensList: bool)
    | CloseList
    | Ignore

  /**
   The decision the loop body makes for one line. A titled line without
   `href` is ignored even when it starts with `</ul>`; a titled line with an
   `href` becomes a link, which opens a list exactly when the line ends with
   `<ul>`.
   */
  function Classify(line: Line): (a: Action)
    ensures var p := Feed(line.events);
      && (a.AddLink? <==> p.title != "" && "href" in p.attrs.value)
      && (a.AddLink? ==> a.title == p.title && a.url == p.attrs.value["href"])
      && (a.AddLink? ==> (a.opensList <==> EndsWith(line.raw, "<ul>")))
      && (a.CloseList? <==> p.title == "" && StartsWith(line.raw, "</ul>"))
  {
    var p := Feed(line.events);
    if p.title != "" then
      var attrs := p.attrs.value;
      if "href" in attrs then AddLink(p.title, attrs["href"], EndsWith(line.raw, "<ul>"))
      else Ignore
    else if StartsWith(line.raw, "</ul>") then CloseList
    else Ignore
  }

  /**
   The line's decision restated over its callbacks: a link carries the text
   seen inside anchors, and the `href` of the `a` tag that opened the last
   anchor.
   */
  lemma ClassifyByEvents(line: Line, j: int)
    requires Opens(line.events, j)
    requires forall k :: j < k < |line.events| ==> !Opens(line.events, k)
    ensures var attrs := ToDict(line.events[j].attrs);
      && (Classify(line).AddLink? <==> AnchorText(line.events) != "" && "href" in attrs)
      && (Classify(line).AddLink? ==> Classify(line).title == AnchorText(line.events) && Classify(line).url == attrs["href"])
  {
    FeedMatchesReference(line.events);
    FeedAttrsFromLastOpening(line.events, j);
  }

  /** A line with no `a` start tag never becomes a link: it closes a list or is ignored. */
  lemma NoAnchorNoLink(line: Line)
    requires forall j :: 0 <= j < |line.events| ==> !IsAnchorStart(line.events[j])
    ensures Classify(line).CloseList? <==> StartsWith(line.raw, "</ul>")
    ensures !Classify(line).AddLink?
  {
    FeedAttrsNone(line.events);
  }

  /**
   The builder's state: the stack of open parents, kept as its height
   `parents` (the stack holds the first `parents` nodes of the spine of
   `items`), and the top-level entries `items`.
   */
  datatype Builder = Builder(parents: nat, items: seq<AnchorLink>)

  /** The open parents really are nodes of the tree. */
  predicate Valid(b: Builder) {
    b.parents <= |Spine(b.items)|
  }

  /** Before the first line: no open parent, no entry. */
  const Start: Builder := Builder(0, [])

  /** The stack height after a line's action: a list-opening link pushes, a close pops unless the stack is empty. */
  function NextDepth(depth: nat, a: Action): nat {
    match a
    case AddLink(_, _, opensList) => if opensList then depth + 1 else depth
    case CloseList => if depth == 0 then 0 else depth - 1
    case Ignore => depth
  }

  /**
   One iteration of the loop. A new link is attached under the innermost open
   parent (or at top level) and pushed when its line opens a list; a close
   pops the innermost parent, if any; an ignored line changes nothing. What
   attaching a link does to the tree is stated by `ApplyAddLink`.
   */
  function Apply(b: Builder, a: Action): (r: Builder)
    requires Valid(b)
    ensures Valid(r)
    ensures r.parents == NextDepth(b.parents, a)
    ensures a.Ignore? ==> r == b
    ensures a.CloseList? ==> r.items == b.items
    ensures a.CloseList? && b.parents == 0 ==> r == b
  {
    match a
    case AddLink(title, url, opensList) =>
      var n := NewLink(title, url);
      SpineInsertAt(b.items, b.parents, n);
      Builder(if opensList then b.parents + 1 else b.parents, InsertAt(b.items, b.parents, n))
    case CloseList =>
      if b.parents == 0 then b else b.(parents := b.parents - 1)
    case Ignore =>
      b
  }

  /**
   A new link is added at the end of the document-order listing, at the
   current stack height, becomes the newest node on the right edge of the
   tree (so it is the new top when pushed), and leaves the open parents'
   titles and urls alone.
   */
  lemma ApplyAddLink(b: Builder, title: string, url: Option<string>, opensList: bool)
    requires Valid(b)
    ensures Flatten(Apply(b, AddLink(title, url, opensList)).items, 0) == Flatten(b.items, 0) + [Entry(b.parents, title, url, false)]
    ensures |Spine(Apply(b, AddLink(title, url, opensList)).items)| == b.parents + 1
    ensures Spine(Apply(b, AddLink(title, url, opensList)).items)[b.parents] == NewLink(title, url)
    ensures forall i :: 0 <= i < b.parents ==>
      && Spine(Apply(b, AddLink(title, url, opensList)).items)[i].title == Spine(b.items)[i].title
      && Spine(Apply(b, AddLink(title, url, opensList)).items)[i].url == Spine(b.items)[i].url
  {
    var n := NewLink(title, url);
    var items := InsertAt(b.items, b.parents, n);
    assert Apply(b, AddLink(title, url, opensList)).items == items;
    SpineInsertAt(b.items, b.parents, n);
    assert Flatten(items, 0) == Flatten(b.items, 0) + [Entry(b.parents, title, url, false)] by {
      FlattenInsertAt(b.items, b.parents, n, 0);
      assert FlattenNode(n, b.parents) == [Entry(b.parents, title, url, false)] + Flatten([], b.parents + 1);
    }
  }

  /** The loop over `lines`, from state `b`. */
  function Run(b: Builder, lines: seq<Line>): (r: Builder)
    requires Valid(b)
    ensures Valid(r)
    decreases |lines|
  {
    if lines == [] then b else Run(Apply(b, Classify(lines[0])), lines[1..])
  }

  /** `lines[2:-2]`: the two header and two footer lines of the fragment are never processed. */
  function Window(lines: seq<Line>): (w: seq<Line>)
    ensures |lines| <= 4 ==> w == []
    ensures |lines| > 4 ==> w == lines[2..|lines| - 2]
  {
    Slice(lines, 2, -2)
  }

  /** `ret[0].active = True`: only the first top-level entry is marked, and only when there is one. */
  function MarkFirstActive(items: seq<AnchorLink>): (r: seq<AnchorLink>)
    ensures |r| == |items|
    ensures items != [] ==> r[0] == items[0].(active := true)
    ensures forall i :: 0 < i < |items| ==> r[i] == items[i]
  {
    if items == [] then [] else [items[0].(active := true)] + items[1..]
  }

  /** `_parse_html_table_of_contents(html)`, given the fragment as its lines. */
  function ParseTableOfContents(lines: seq<Line>): seq<AnchorLink> {
    MarkFirstActive(Run(Start, Window(lines)).items)
  }

  /** `TableOfContents`: the top-level entries parsed from the fragment. */
  datatype TableOfContents = TableOfContents(items: seq<AnchorLink>) {
    /** `str(toc)`. */
    function ToString(): string {
      Render(items)
    }
  }

  /** `TableOfContents(html)`. */
  function NewTableOfContents(lines: seq<Line>): TableOfContents {
    TableOfContents(ParseTableOfContents(lines))
  }

  // A reference description of the result, without a tree: the links of the
  // processed lines in document order, each at the depth of list nesting at
  // which its line occurs.

  /** The stack height after `lines`, starting from `depth`. */
  function DepthAfter(depth: nat, lines: seq<Line>): nat
    decreases |lines|
  {
    if lines == [] then depth else DepthAfter(NextDepth(depth, Classify(lines[0])), lines[1..])
  }

  /** The number of lines that become links. */
  function CountLinks(lines: seq<Line>): nat
    decreases |lines|
  {
    if lines == [] then 0 else (if Classify(lines[0]).AddLink? then 1 else 0) + CountLinks(lines[1..])
  }

  /** The links of `lines` in document order, each at the nesting depth of its line; none is active yet. */
  function Links(depth: nat, lines: seq<Line>): (r: seq<Entry>)
    ensures |r| == CountLinks(lines)
    ensures forall i :: 0 <= i < |r| ==> !r[i].active
    decreases |lines|
  {
    if lines == [] then []
    else
      var a := Classify(lines[0]);
      Added(depth, a) + Links(NextDepth(depth, a), lines[1..])
  }

  /** The loop builds a tree whose pre-order listing is the reference listing, and ends with the reference stack height. */
  lemma {:induction false} RunMatchesLinks(b: Builder, lines: seq<Line>)
    requires Valid(b)
    ensures Run(b, lines).parents == DepthAfter(b.parents, lines)
    ensures Flatten(Run(b, lines).items, 0) == Flatten(b.items, 0) + Links(b.parents, lines)
    decreases |lines|
  {
    if lines != [] {
      var a := Classify(lines[0]);
      var b' := Apply(b, a);
      RunMatchesLinks(b', lines[1..]);
      var before, added, rest := Flatten(b.items, 0), Added(b.parents, a), Links(b'.parents, lines[1..]);
      ApplyListing(b, a);
      assert Links(b.parents, lines) == added + rest;
      ConcatAssoc(before, added, rest);
      assert Run(b, lines) == Run(b', lines[1..]);
      assert DepthAfter(b.parents, lines) == DepthAfter(b'.parents, lines[1..]);
    }
  }

  /** The listing entry an action adds at stack height `depth`, if any. */
  function Added(depth: nat, a: Action): seq<Entry> {
    if a.AddLink? then [Entry(depth, a.title, a.url, false)] else []
  }

  /** One iteration extends the listing by what its action adds. */
  lemma ApplyListing(b: Builder, a: Action)
    requires Valid(b)
    ensures Flatten(Apply(b, a).items, 0) == Flatten(b.items, 0) + Added(b.parents, a)
  {
    if a.AddLink? {
      ApplyAddLink(b, a.title, a.url, a.opensList);
    } else {
      assert Flatten(b.items, 0) + [] == Flatten(b.items, 0);
    }
  }

  /** Running over two stretches of lines in turn is running over both. */
  lemma {:induction false} RunAppend(b: Builder, xs: seq<Line>, ys: seq<Line>)
    requires Valid(b)
    ensures Run(b, xs + ys) == Run(Run(b, xs), ys)
    decreases |xs|
  {
    if xs == [] {
      assert xs + ys == ys;
    } else {
      assert (xs + ys)[0] == xs[0];
      assert (xs + ys)[1..] == xs[1..] + ys;
      RunAppend(Apply(b, Classify(xs[0])), xs[1..], ys);
    }
  }

  /** Removing an ignored line, such as an anchor without `href`, anywhere in the processed lines changes nothing. */
  lemma IgnoredLineIsInvisible(pre: seq<Line>, line: Line, post: seq<Line>)
    requires Classify(line).Ignore?
    ensures Run(Start, pre + [line] + post) == Run(Start, pre + post)
  {
    RunAppend(Start, pre + [line], post);
    RunAppend(Start, pre, [line]);
    RunAppend(Start, pre, post);
  }

  /** A `</ul>` line with no list open (an unbalanced close) changes nothing, wherever it occurs. */
  lemma UnbalancedCloseIsInvisible(pre: seq<Line>, line: Line, post: seq<Line>)
    requires Classify(line).CloseList? && DepthAfter(0, pre) == 0
    ensures Run(Start, pre + [line] + post) == Run(Start, pre + post)
  {
    RunMatchesLinks(Start, pre);
    RunAppend(Start, pre + [line], post);
    RunAppend(Start, pre, [line]);
    RunAppend(Start, pre, post);
  }

  /** The fragment's two header and two footer lines are exactly what the window drops. */
  lemma WindowOfWrapped(header: seq<Line>, body: seq<Line>, footer: seq<Line>)
    requires |header| == 2 && |footer| == 2
    ensures Window(header + body + footer) == body
  {
    var lines := header + body + footer;
    if body == [] {
      assert |lines| == 4;
    } else {
      assert lines[2..|lines| - 2] == body;
    }
  }

  /** Marking the first top-level entry marks exactly the first entry of the listing. */
  lemma MarkFirstActiveListing(items: seq<AnchorLink>)
    requires items != []
    ensures var listing := Flatten(items, 0);
      Flatten(MarkFirstActive(items), 0) == listing[0 := listing[0].(active := true)]
  {
    var x, rest := items[0], items[1..];
    var x' := x.(active := true);
    var kids, tail := Flatten(x.children, 1), Flatten(rest, 0);
    assert Flatten(items, 0) == [Entry(0, x.title, x.url, x.active)] + (kids + tail) by {
      assert items == [x] + rest;
      FlattenCons(x, rest, 0);
    }
    assert Flatten(MarkFirstActive(items), 0) == [Entry(0, x.title, x.url, true)] + (kids + tail) by {
      assert MarkFirstActive(items) == [x'] + rest;
      FlattenCons(x', rest, 0);
    }
    ReplaceHead(Entry(0, x.title, x.url, x.active), Entry(0, x.title, x.url, true), kids + tail);
  }

  /**
   The parsed table of contents, read in pre-order, is the reference listing
   of the processed lines: one node per line with a title and an `href`, in
   document order, at the nesting depth of its line, and the first of them,
   only, active. The result is empty exactly when no line became a link.
   */
  lemma ParseTableOfContentsListing(lines: seq<Line>)
    ensures var listing, links := Flatten(ParseTableOfContents(lines), 0), Links(0, Window(lines));
      && |listing| == |links| == CountLinks(Window(lines))
      && (forall i :: 0 <= i < |links| ==> listing[i] == links[i].(active := i == 0))
      && (ParseTableOfContents(lines) == [] <==> links == [])
  {
    var items := Run(Start, Window(lines)).items;
    RunMatchesLinks(Start, Window(lines));
    assert Flatten(items, 0) == Links(0, Window(lines));
    if items != [] {
      MarkFirstActiveListing(items);
    }
  }

  /** The listings differ at most in their `active` flags. */
  ghost predicate SameButActive(a: seq<Entry>, b: seq<Entry>) {
    |a| == |b| && forall i :: 0 <= i < |a| ==> a[i].(active := false) == b[i].(active := false)
  }

  /** The printout does not show the `active` flag. */
  lemma {:induction false} LinesIgnoreActive(a: seq<Entry>, b: seq<Entry>)
    requires SameButActive(a, b)
    ensures Lines(a) == Lines(b)
    decreases |a|
  {
    if a != [] {
      var n := |a| - 1;
      assert a[n].(active := false) == b[n].(active := false);
      LinesIgnoreActive(a[..n], b[..n]);
    }
  }

  /** `str(TableOfContents(html))` prints one line per link, in document order, indented four spaces per level of nesting. */
  lemma RenderedLinks(lines: seq<Line>)
    ensures NewTableOfContents(lines).ToString() == Lines(Links(0, Window(lines)))
  {
    ParseTableOfContentsListing(lines);
    RenderIsLines(ParseTableOfContents(lines));
    LinesIgnoreActive(Flatten(ParseTableOfContents(lines), 0), Links(0, Window(lines)));
  }

  /** An extra `</ul>` beyond the open lists, before the footer, leaves the parsed table of contents unchanged. */
  lemma UnbalancedTrailingClose(header: seq<Line>, body: seq<Line>, close: Line, footer: seq<Line>)
    requires |header| == 2 && |footer| == 2
    requires Classify(close).CloseList? && DepthAfter(0, body) == 0
    ensures ParseTableOfContents(header + body + [close] + footer) == ParseTableOfContents(header + body + footer)
  {
    assert header + body + [close] + footer == header + (body + [close]) + footer;
    WindowOfWrapped(header, body + [close], footer);
    WindowOfWrapped(header, body, footer);
    UnbalancedCloseIsInvisible(body, close, []);
    assert body + [close] + [] == body + [close] && body + [] == body;
  }
}
