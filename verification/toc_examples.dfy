/**
 Worked examples: the fragment for a two-level table of contents, and a line
 that carries two anchors.
 */
module TocExamples {
  import opened Wrappers
  import opened Text
  import opened TocParser
  import opened AnchorLinks
  import opened Toc

  /** The callbacks for `<li><a href="url">title</a>` followed by `last`. */
  function ItemEvents(title: string, url: string, last: Event): seq<Event> {
    [StartTag("li", []), StartTag("a", [Attribute("href", Some(url))]), Data(title), EndTag("a"), last]
  }

  /** `dict` of a single `href` attribute. */
  lemma HrefDict(url: string)
    ensures ToDict([Attribute("href", Some(url))]) == map["href" := Some(url)]
  {
    assert [Attribute("href", Some(url))][..0] == [];
  }

  /** Whatever closes the line, its anchor text and `href` are what the parser keeps. */
  lemma FeedItem(title: string, url: string, last: Event)
    requires !IsAnchorStart(last)
    ensures Feed(ItemEvents(title, url, last)).title == title
    ensures Feed(ItemEvents(title, url, last)).attrs == Some(map["href" := Some(url)])
  {
    FeedFirstAnchor(title, url);
    FeedSnoc(FirstAnchorEvents(title, url), last);
    assert FirstAnchorEvents(title, url) + [last] == ItemEvents(title, url, last);
  }

  const LineA: Line := Line("<li><a href=\"#a\">A</a></li>", ItemEvents("A", "#a", EndTag("li")))
  const LineB: Line := Line("<li><a href=\"#b\">B</a><ul>", ItemEvents("B", "#b", StartTag("ul", [])))
  const LineC: Line := Line("<li><a href=\"#c\">C</a></li>", ItemEvents("C", "#c", EndTag("li")))
  const CloseLine: Line := Line("</ul></li>", [EndTag("ul"), EndTag("li")])

  /** The fragment: a two-line header, four lines of entries, a two-line footer. */
  const Fragment: seq<Line> := [
    Line("<div class=\"toc\">", [StartTag("div", [Attribute("class", Some("toc"))])]),
    Line("<ul>", [StartTag("ul", [])]),
    LineA, LineB, LineC, CloseLine,
    Line("</ul>", [EndTag("ul")]),
    Line("</div>", [EndTag("div")])
  ]

  lemma ClassifyLineA()
    ensures Classify(LineA) == AddLink("A", Some("#a"), false)
  {
    FeedItem("A", "#a", EndTag("li"));
  }

  lemma ClassifyLineB()
    ensures Classify(LineB) == AddLink("B", Some("#b"), true)
  {
    FeedItem("B", "#b", StartTag("ul", []));
  }

  lemma ClassifyLineC()
    ensures Classify(LineC) == AddLink("C", Some("#c"), false)
  {
    FeedItem("C", "#c", EndTag("li"));
  }

  lemma ClassifyCloseLine()
    ensures Classify(CloseLine) == CloseList
  {
    NoAnchorNoLink(CloseLine);
    assert CloseLine.raw[..5] == "</ul>";
  }

  const TreeA: AnchorLink := AnchorLink("A", Some("#a"), [], false)
  const TreeB: AnchorLink := AnchorLink("B", Some("#b"), [AnchorLink("C", Some("#c"), [], false)], false)

  /** A link at the top level is appended to the forest. */
  lemma AddAtTop(b: Builder, title: string, url: Option<string>, opensList: bool)
    requires Valid(b) && b.parents == 0
    ensures Apply(b, AddLink(title, url, opensList))
      == Builder(if opensList then 1 else 0, b.items + [NewLink(title, url)])
  {
  }

  /** A link one level down lands among the children of the last top-level node. */
  lemma AddUnderLast(b: Builder, title: string, url: Option<string>)
    requires Valid(b) && b.parents == 1
    ensures var last := b.items[|b.items| - 1];
      Apply(b, AddLink(title, url, false))
      == Builder(1, b.items[..|b.items| - 1] + [last.(children := last.children + [NewLink(title, url)])])
  {
    var last := b.items[|b.items| - 1];
    assert InsertAt(last.children, 0, NewLink(title, url)) == last.children + [NewLink(title, url)];
  }

  lemma RunStep(b: Builder, lines: seq<Line>)
    requires Valid(b) && lines != []
    ensures Run(b, lines) == Run(Apply(b, Classify(lines[0])), lines[1..])
  {
  }

  lemma RunOne(b: Builder, line: Line)
    requires Valid(b)
    ensures Run(b, [line]) == Apply(b, Classify(line))
  {
    assert [line][1..] == [];
  }

  const Pushed: Builder := Builder(1, [TreeA, TreeB.(children := [])])
  const Done: Builder := Builder(0, [TreeA, TreeB])

  /** The first two lines: A at the top, then B, which opens a list. */
  lemma RunHead()
    ensures Run(Start, [LineA, LineB]) == Pushed
  {
    var b1 := Builder(0, [TreeA]);
    assert Apply(Start, Classify(LineA)) == b1 by {
      ClassifyLineA();
      AddAtTop(Start, "A", Some("#a"), false);
    }
    assert Apply(b1, Classify(LineB)) == Pushed by {
      ClassifyLineB();
      AddAtTop(b1, "B", Some("#b"), true);
      assert [TreeA] + [NewLink("B", Some("#b"))] == Pushed.items;
    }
    assert Run(b1, [LineB]) == Pushed by {
      RunOne(b1, LineB);
    }
    RunStep(Start, [LineA, LineB]);
    assert [LineA, LineB][1..] == [LineB];
  }

  /** The last two lines: C goes under B, then the list is closed. */
  lemma RunTail()
    ensures Run(Pushed, [LineC, CloseLine]) == Done
  {
    var b3 := Builder(1, [TreeA, TreeB]);
    assert Apply(Pushed, Classify(LineC)) == b3 by {
      ClassifyLineC();
      AddUnderLast(Pushed, "C", Some("#c"));
      var last := Pushed.items[1];
      assert Pushed.items[..1] == [TreeA];
      assert last.children + [NewLink("C", Some("#c"))] == TreeB.children;
      assert last.(children := TreeB.children) == TreeB;
    }
    assert Run(b3, [CloseLine]) == Done by {
      ClassifyCloseLine();
      RunOne(b3, CloseLine);
    }
    RunStep(Pushed, [LineC, CloseLine]);
    assert [LineC, CloseLine][1..] == [CloseLine];
  }

  /** The loop over the body: B is pushed, C lands under it, the close pops it. */
  lemma RunBody()
    ensures Run(Start, [LineA, LineB, LineC, CloseLine]) == Done
  {
    RunHead();
    RunTail();
    RunAppend(Start, [LineA, LineB], [LineC, CloseLine]);
    assert [LineA, LineB] + [LineC, CloseLine] == [LineA, LineB, LineC, CloseLine];
  }

  /** A and B at top level, C under B, A active. */
  lemma TwoLevelFragment()
    ensures ParseTableOfContents(Fragment) == [TreeA.(active := true), TreeB]
  {
    assert Window(Fragment) == [LineA, LineB, LineC, CloseLine];
    RunBody();
  }

  /** A forest of one entry prints as that entry. */
  lemma PrintOne(x: AnchorLink, depth: nat)
    ensures PrintForest([x], depth) == IndentPrint(x, depth)
  {
    assert [x][..0] == [];
  }

  /** A forest of two entries prints as the first, then the second. */
  lemma PrintTwo(x: AnchorLink, y: AnchorLink, depth: nat)
    ensures PrintForest([x, y], depth) == IndentPrint(x, depth) + IndentPrint(y, depth)
  {
    assert [x, y][..1] == [x];
    PrintOne(x, depth);
  }

  /** A childless entry prints as its one line. */
  lemma PrintLeaf(title: string, url: string, active: bool, depth: nat)
    ensures IndentPrint(AnchorLink(title, Some(url), [], active), depth) == Indent(depth) + title + " - " + url + "\n"
  {
  }

  /** A top-level leaf followed by a parent of one leaf prints as three lines, the last indented once. */
  lemma PrintTwoLevel(a: string, ua: string, b: string, ub: string, c: string, uc: string)
    ensures Render([AnchorLink(a, Some(ua), [], true), AnchorLink(b, Some(ub), [AnchorLink(c, Some(uc), [], false)], false)])
      == (a + " - " + ua + "\n") + ((b + " - " + ub + "\n") + ("    " + c + " - " + uc + "\n"))
  {
    var x, leaf := AnchorLink(a, Some(ua), [], true), AnchorLink(c, Some(uc), [], false);
    var y := AnchorLink(b, Some(ub), [leaf], false);
    PrintTwo(x, y, 0);
    PrintLeaf(a, ua, true, 0);
    PrintLeaf(c, uc, false, 1);
    assert Indent(1) == "    ";
    assert Indent(0) == "";
    PrintOne(leaf, 1);
    assert IndentPrint(y, 0) == (b + " - " + ub + "\n") + ("    " + c + " - " + uc + "\n");
  }

  /** The two-level tree prints as `A - #a`, `B - #b`, `    C - #c`, one per line. */
  lemma TwoLevelTreePrintout()
    ensures Render([TreeA.(active := true), TreeB]) == "A - #a\nB - #b\n    C - #c\n"
  {
    PrintTwoLevel("A", "#a", "B", "#b", "C", "#c");
  }

  /** `str(TableOfContents(html))` for the two-level fragment. */
  lemma TwoLevelPrintout()
    ensures NewTableOfContents(Fragment).ToString() == "A - #a\nB - #b\n    C - #c\n"
  {
    TwoLevelFragment();
    TwoLevelTreePrintout();
  }

  /** The callbacks for `<li><a href="u1">t1</a><a href="u2">t2</a></li>`, split after the first anchor. */
  function FirstAnchorEvents(t1: string, u1: string): seq<Event> {
    [StartTag("li", []), StartTag("a", [Attribute("href", Some(u1))]), Data(t1), EndTag("a")]
  }

  function TwoAnchorEvents(t1: string, u1: string, t2: string, u2: string): seq<Event> {
    FirstAnchorEvents(t1, u1) + [StartTag("a", [Attribute("href", Some(u2))]), Data(t2), EndTag("a"), EndTag("li")]
  }

  /** After the first anchor: closed, with its `href` and text. */
  lemma FeedFirstAnchor(t1: string, u1: string)
    ensures Feed(FirstAnchorEvents(t1, u1)) == ParserState(false, Some(map["href" := Some(u1)]), t1)
  {
    var attrs := map["href" := Some(u1)];
    var e0, e1, e2, e3 := StartTag("li", []), StartTag("a", [Attribute("href", Some(u1))]), Data(t1), EndTag("a");
    HrefDict(u1);
    assert Feed([e0]) == Fresh by {
      FeedSnoc([], e0);
      assert [] + [e0] == [e0];
    }
    assert Feed([e0, e1]) == ParserState(true, Some(attrs), "") by {
      FeedSnoc([e0], e1);
      assert [e0] + [e1] == [e0, e1];
    }
    assert Feed([e0, e1, e2]) == ParserState(true, Some(attrs), t1) by {
      FeedSnoc([e0, e1], e2);
      assert [e0, e1] + [e2] == [e0, e1, e2];
    }
    assert Feed([e0, e1, e2, e3]) == ParserState(false, Some(attrs), t1) by {
      FeedSnoc([e0, e1, e2], e3);
      assert [e0, e1, e2] + [e3] == [e0, e1, e2, e3];
    }
    assert [e0, e1, e2, e3] == FirstAnchorEvents(t1, u1);
  }

  /** After the whole line: the second anchor's `href`, both texts. */
  lemma FeedTwoAnchors(t1: string, u1: string, t2: string, u2: string)
    ensures Feed(TwoAnchorEvents(t1, u1, t2, u2)) == ParserState(false, Some(map["href" := Some(u2)]), t1 + t2)
  {
    var attrs := map["href" := Some(u2)];
    var p0 := FirstAnchorEvents(t1, u1);
    var e4, e5, e6, e7 := StartTag("a", [Attribute("href", Some(u2))]), Data(t2), EndTag("a"), EndTag("li");
    HrefDict(u2);
    FeedFirstAnchor(t1, u1);
    var p1, p2, p3 := p0 + [e4], p0 + [e4] + [e5], p0 + [e4] + [e5] + [e6];
    assert Feed(p1) == ParserState(true, Some(attrs), t1) by {
      FeedSnoc(p0, e4);
    }
    assert Feed(p2) == ParserState(true, Some(attrs), t1 + t2) by {
      FeedSnoc(p1, e5);
    }
    assert Feed(p3) == ParserState(false, Some(attrs), t1 + t2) by {
      FeedSnoc(p2, e6);
    }
    FeedSnoc(p3, e7);
    assert p3 + [e7] == TwoAnchorEvents(t1, u1, t2, u2);
  }

  /**
   Two anchors on one line: the second `a` start tag opens a new anchor once
   the first is closed, so the title collects both texts and the url is the
   second anchor's.
   */
  lemma TwoAnchorsOnOneLine()
    ensures Classify(Line("<li><a href=\"#x\">X</a><a href=\"#y\">Y</a></li>", TwoAnchorEvents("X", "#x", "Y", "#y")))
      == AddLink("XY", Some("#y"), false)
  {
    FeedTwoAnchors("X", "#x", "Y", "#y");
  }
}
