/**
 The `AnchorLink` tree of mkdocs/toc.py and its indented printout.

 A forest is an immutable `seq<AnchorLink>`; the parser's stack of open
 parents is described by a depth along the forest's rightmost spine (see
 `Spine` and `InsertAt`) instead of by references into a mutable tree.
 */
module AnchorLinks {
  import opened Wrappers
  import opened Text

  /**
   One entry of the table of contents. `url` is the `href` value, which the
   tokenizer reports as `None` for a value-less attribute; `active` is the flag
   the builder sets on the first top-level entry only.
   */
  datatype AnchorLink = AnchorLink(title: string, url: Option<string>, children: seq<AnchorLink>, active: bool)

  /** `AnchorLink(title, url)`: a new entry starts without children and inactive. */
  function NewLink(title: string, url: Option<string>): (n: AnchorLink)
    ensures n.title == title && n.url == url
    ensures n.children == [] && !n.active
  {
    AnchorLink(title, url, [], false)
  }

  /** How `'%s'` formats a url: the value itself, or `None` for a missing value. */
  function UrlText(url: Option<string>): string {
    match url
    case Some(u) => u
    case None => "None"
  }

  /** One printed line: `4*depth` spaces, the title, ` - `, the url and a newline. */
  function EntryLine(depth: nat, title: string, url: Option<string>): string {
    Indent(depth) + title + " - " + UrlText(url) + "\n"
  }

  /** `AnchorLink.indent_print(depth)`: the entry's own line, then every child printed one level deeper. */
  function IndentPrint(n: AnchorLink, depth: nat): string
    decreases n, 1
  {
    EntryLine(depth, n.title, n.url) + PrintForest(n.children, depth + 1)
  }

  /** The printouts of `items`, in order, each at `depth`. */
  function PrintForest(items: seq<AnchorLink>, depth: nat): string
    decreases items, 0
  {
    if items == [] then ""
    else PrintForest(items[..|items| - 1], depth) + IndentPrint(items[|items| - 1], depth)
  }

  /** `TableOfContents.__str__`: `str(item)` is `indent_print()` at depth 0, joined over the top-level entries. */
  function Render(items: seq<AnchorLink>): string {
    PrintForest(items, 0)
  }

  /** One entry of the pre-order listing of a forest. */
  datatype Entry = Entry(depth: nat, title: string, url: Option<string>, active: bool)

  /** The pre-order listing of one entry and its descendants, the entry at `depth`. */
  function FlattenNode(n: AnchorLink, depth: nat): (r: seq<Entry>)
    ensures |r| >= 1 && r[0] == Entry(depth, n.title, n.url, n.active)
    decreases n, 1
  {
    [Entry(depth, n.title, n.url, n.active)] + Flatten(n.children, depth + 1)
  }

  /** The pre-order listing of a forest whose top-level entries sit at `depth`. */
  function Flatten(items: seq<AnchorLink>, depth: nat): (r: seq<Entry>)
    ensures |r| >= |items|
    decreases items, 0
  {
    if items == [] then []
    else Flatten(items[..|items| - 1], depth) + FlattenNode(items[|items| - 1], depth)
  }

  /** The printed lines of a listing, one per entry. */
  function Lines(entries: seq<Entry>): string {
    if entries == [] then ""
    else
      var e := entries[|entries| - 1];
      Lines(entries[..|entries| - 1]) + EntryLine(e.depth, e.title, e.url)
  }

  /** One more entry adds its line at the end. */
  lemma LinesSnoc(init: seq<Entry>, e: Entry)
    ensures Lines(init + [e]) == Lines(init) + EntryLine(e.depth, e.title, e.url)
  {
    var entries := init + [e];
    assert entries[..|entries| - 1] == init;
  }

  lemma {:induction false} LinesAppend(a: seq<Entry>, b: seq<Entry>)
    ensures Lines(a + b) == Lines(a) + Lines(b)
    decreases |b|
  {
    if b == [] {
      assert a + b == a;
    } else {
      var n := |b| - 1;
      var init, e := b[..n], b[n];
      assert a + b == (a + init) + [e] && b == init + [e];
      LinesSnoc(a + init, e);
      LinesAppend(a, init);
      LinesSnoc(init, e);
      ConcatAssoc(Lines(a), Lines(init), EntryLine(e.depth, e.title, e.url));
    }
  }

  /** Adding one entry at the end of a forest adds its listing at the end. */
  lemma FlattenSnoc(init: seq<AnchorLink>, x: AnchorLink, depth: nat)
    ensures Flatten(init + [x], depth) == Flatten(init, depth) + FlattenNode(x, depth)
  {
    var items := init + [x];
    assert items[..|items| - 1] == init;
  }

  lemma {:induction false} FlattenAppend(a: seq<AnchorLink>, b: seq<AnchorLink>, depth: nat)
    ensures Flatten(a + b, depth) == Flatten(a, depth) + Flatten(b, depth)
    decreases |b|
  {
    if b == [] {
      assert a + b == a;
    } else {
      var n := |b| - 1;
      var init, x := b[..n], b[n];
      assert a + b == (a + init) + [x] && b == init + [x];
      FlattenSnoc(a + init, x, depth);
      FlattenAppend(a, init, depth);
      FlattenSnoc(init, x, depth);
      ConcatAssoc(Flatten(a, depth), Flatten(init, depth), FlattenNode(x, depth));
    }
  }

  /** The listing of a forest starts with its first entry, then that entry's descendants, then the rest. */
  lemma FlattenCons(x: AnchorLink, rest: seq<AnchorLink>, depth: nat)
    ensures Flatten([x] + rest, depth) == [Entry(depth, x.title, x.url, x.active)] + (Flatten(x.children, depth + 1) + Flatten(rest, depth))
  {
    FlattenAppend([x], rest, depth);
    FlattenSnoc([], x, depth);
    assert [] + [x] == [x];
    ConcatAssoc([Entry(depth, x.title, x.url, x.active)], Flatten(x.children, depth + 1), Flatten(rest, depth));
  }

  /** `indent_print` prints exactly one line per entry of the pre-order listing: depth-indented title, ` - `, url. */
  lemma {:induction false} IndentPrintIsLines(n: AnchorLink, depth: nat)
    ensures IndentPrint(n, depth) == Lines(FlattenNode(n, depth))
    decreases n, 1
  {
    PrintForestIsLines(n.children, depth + 1);
    LinesAppend([Entry(depth, n.title, n.url, n.active)], Flatten(n.children, depth + 1));
    assert Lines([Entry(depth, n.title, n.url, n.active)]) == EntryLine(depth, n.title, n.url);
  }

  lemma {:induction false} PrintForestIsLines(items: seq<AnchorLink>, depth: nat)
    ensures PrintForest(items, depth) == Lines(Flatten(items, depth))
    decreases items, 0
  {
    if items != [] {
      var n := |items| - 1;
      PrintForestIsLines(items[..n], depth);
      IndentPrintIsLines(items[n], depth);
      LinesAppend(Flatten(items[..n], depth), FlattenNode(items[n], depth));
    }
  }

  /** An entry whose `href` had no value prints its url as `None`. */
  lemma ValuelessHrefPrintsNone(title: string, depth: nat)
    ensures IndentPrint(NewLink(title, None), depth) == Indent(depth) + title + " - None\n"
  {
  }

  /** The whole table prints as the lines of its pre-order listing, top-level entries unindented. */
  lemma RenderIsLines(items: seq<AnchorLink>)
    ensures Render(items) == Lines(Flatten(items, 0))
  {
    PrintForestIsLines(items, 0);
  }

  /** The rightmost path of a forest, outermost first: the last top-level entry, its last child, and so on down. */
  function Spine(items: seq<AnchorLink>): (r: seq<AnchorLink>)
    ensures items == [] <==> r == []
    ensures items != [] ==> r[0] == items[|items| - 1]
    decreases items
  {
    if items == [] then [] else [items[|items| - 1]] + Spine(items[|items| - 1].children)
  }

  /**
   Attaches `n` beneath the first `depth` nodes of the spine: as the last
   child of spine node `depth - 1`, or as a new last top-level entry when
   `depth` is 0.
   */
  function InsertAt(items: seq<AnchorLink>, depth: nat, n: AnchorLink): seq<AnchorLink>
    requires depth <= |Spine(items)|
    decreases depth
  {
    if depth == 0 then items + [n]
    else
      var last := items[|items| - 1];
      items[..|items| - 1] + [last.(children := InsertAt(last.children, depth - 1, n))]
  }

  /**
   After attaching `n` at `depth`, the spine runs through the same `depth`
   nodes as before (same titles and urls), then through `n` and `n`'s own
   spine: the node attached is the newest node on the right edge.
   */
  lemma {:induction false} SpineInsertAt(items: seq<AnchorLink>, depth: nat, n: AnchorLink)
    requires depth <= |Spine(items)|
    ensures var r := Spine(InsertAt(items, depth, n));
      && |r| == depth + 1 + |Spine(n.children)|
      && r[depth] == n
      && forall i :: 0 <= i < depth ==> r[i].title == Spine(items)[i].title && r[i].url == Spine(items)[i].url
    decreases depth
  {
    if depth > 0 {
      var last := items[|items| - 1];
      SpineInsertAt(last.children, depth - 1, n);
    }
  }

  /** Attaching a node adds its listing at the very end of the forest's pre-order listing, at the spine depth it was attached under. */
  lemma {:induction false} FlattenInsertAt(items: seq<AnchorLink>, depth: nat, n: AnchorLink, base: nat)
    requires depth <= |Spine(items)|
    ensures Flatten(InsertAt(items, depth, n), base) == Flatten(items, base) + FlattenNode(n, base + depth)
    decreases depth
  {
    if depth == 0 {
      FlattenSnoc(items, n, base);
    } else {
      var k := |items| - 1;
      var below := InsertAt(items[k].children, depth - 1, n);
      var tail := FlattenNode(n, base + depth);
      assert Flatten(below, base + 1) == Flatten(items[k].children, base + 1) + tail by {
        FlattenInsertAt(items[k].children, depth - 1, n, base + 1);
      }
      FlattenReplaceChildren(items, below, tail, base);
    }
  }

  /** Replacing the last entry's children by ones whose listing extends the old one extends the forest's listing the same way. */
  lemma FlattenReplaceChildren(items: seq<AnchorLink>, children: seq<AnchorLink>, extra: seq<Entry>, base: nat)
    requires items != []
    requires Flatten(children, base + 1) == Flatten(items[|items| - 1].children, base + 1) + extra
    ensures Flatten(items[..|items| - 1] + [items[|items| - 1].(children := children)], base) == Flatten(items, base) + extra
  {
    var k := |items| - 1;
    var last := items[k];
    var e := [Entry(base, last.title, last.url, last.active)];
    var before, kids := Flatten(items[..k], base), Flatten(last.children, base + 1);
    assert Flatten(items[..k] + [last.(children := children)], base) == before + (e + (kids + extra)) by {
      FlattenSnoc(items[..k], last.(children := children), base);
    }
    assert Flatten(items, base) == before + (e + kids) by {
      assert items[..k] + [last] == items;
      FlattenSnoc(items[..k], last, base);
    }
    assert before + (e + (kids + extra)) == (before + (e + kids)) + extra;
  }
}
