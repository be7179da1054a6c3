# Table-of-contents parsing in MkDocs (mkdocs/toc.py), modelled in Dafny

MkDocs builds the per-page table of contents by rendering an HTML list with a
Markdown extension and parsing that HTML back into a tree of `AnchorLink`
entries. This project models that parsing step and the tree's text rendering:

- `TocParser` (toc_parser.dfy) is the per-line `TOCParser` state machine. It
  tracks `in_anchor`, `attrs` and `title`. It is driven by the tokenizer
  callbacks `handle_starttag`, `handle_endtag`, `handle_data`,
  `handle_charref` and `handle_entityref`, including `dict(attrs)`, where the
  last duplicate wins.
- `AnchorLinks` (anchor_link.dfy) is the `AnchorLink` tree, its
  `indent_print` printout, and `TableOfContents.__str__`.
- `Toc` (toc.dfy) is `_parse_html_table_of_contents`: the line window
  `lines[2:-2]`, the per-line decision (link, list close, ignored), the
  parent stack, and marking the first top-level entry active.
- `Text` (text.dfy) holds string prefix and suffix tests, indentation and
  Python slice semantics. `Wrappers` (wrappers.dfy) holds `Option`.
- `TocExamples` (toc_examples.dfy) works through a two-level fragment and a
  line that carries two anchors.

A line of the fragment is given as its raw text together with the sequence of
callbacks the HTML tokenizer makes for it. The parser's stack of open parents
is described by its height. The stack always holds the first `parents` nodes
of the forest's rightmost path (`Spine`), so "append to `parents[-1]`" becomes
"insert at depth `parents` along the spine" (`InsertAt`).

Each operation is paired with an independent description:

- The parser is checked against a reference over the event sequence:
  `AnchorOpen`, `AnchorText`, and the attributes of the last opening `a` tag.
- The builder is checked against `Links`: the links of the processed lines in
  document order, each at the list-nesting depth of its line. The parsed
  forest, read in pre-order (`Flatten`), is exactly that listing, and only
  its first entry is active.
- The printout is checked against `Lines`: one `4*depth`-space-indented
  `title - url` line per entry of that listing.

Three behaviours of the code worth spelling out:

- **Several anchors on one line.** A second `<a>` after `</a>` reopens title
  accumulation. The titles are concatenated and the attributes come from the
  last anchor that opened (`TocExamples.TwoAnchorsOnOneLine`).
- **Character and entity references.** They reach the title re-encoded as
  `&#N;` / `&name;`. They are not decoded.
- **`href` without a value.** Such an anchor still yields an entry. Its url is
  `None` and prints as `None`.

## Model

| member | source | states |
|---|---|---|
| TocParser.ToDict | mkdocs/toc.py:80 | `dict(attrs)` has exactly the attribute names of the tag as keys |
| TocParser.ToDictLastWins | mkdocs/toc.py:80 | a name listed several times maps to the value of its last occurrence |
| TocParser.HandleStartTag | mkdocs/toc.py:75-80 | only an `a` start tag outside an anchor opens one and captures its attributes; otherwise the parser state is unchanged |
| TocParser.HandleEndTag | mkdocs/toc.py:82-84 | an `a` end tag closes the anchor; title and attributes are kept |
| TocParser.HandleData | mkdocs/toc.py:86-89 | text extends the title exactly while an anchor is open |
| TocParser.HandleEntityRef | mkdocs/toc.py:94-95 | an entity reference adds the literal `&name;` to the title inside an anchor |
| TocParser.HandleCharRef | mkdocs/toc.py:91-92 | a character reference adds the literal `&#N;` to the title inside an anchor, by way of the entity handler; otherwise nothing changes |
| TocParser.Step | mkdocs/toc.py:75-95 | after one callback an anchor is open iff it was an `a` start tag or one was open and this is not an `a` end tag; attributes change only when an anchor opens; the title grows by the callback's text only while an anchor was open |
| TocParser.Feed | mkdocs/toc.py:64-95 | after a line, an open anchor or a non-empty title always comes with captured attributes, so `parser.attrs['href']` never indexes `None` |
| TocParser.FeedMatchesReference | mkdocs/toc.py:75-95 | `in_anchor` is true iff some `a` start tag is not followed by an `a` end tag; `title` is the concatenated text of every callback arriving while an anchor is open |
| TocParser.FeedAttrsNone | mkdocs/toc.py:65-80 | `attrs` stays `None` iff the line has no `a` start tag |
| TocParser.FeedAttrsFromLastOpening | mkdocs/toc.py:75-84 | `attrs` is the dictionary of the `a` tag that opened the last anchor |
| Text.Indent | mkdocs/toc.py:51 | the indent for depth `d` is `4*d` spaces |
| AnchorLinks.IndentPrintIsLines | mkdocs/toc.py:50-55 | `IndentPrint`, i.e. `indent_print(depth)`, prints one line per entry of the node's pre-order listing, indented four spaces per level below `depth` |
| AnchorLinks.PrintForestIsLines | mkdocs/toc.py:53-54 | `PrintForest`, the loop over the children, printing a list of siblings at a depth prints the lines of their joint pre-order listing |
| AnchorLinks.RenderIsLines | mkdocs/toc.py:35-36 | `Render`, i.e. `str(toc)`, is the lines of the forest's pre-order listing, top-level entries unindented |
| AnchorLinks.ValuelessHrefPrintsNone | mkdocs/toc.py:52 | an entry whose url is `None` prints `title - None` (`UrlText` formats a missing value as `'%s' % None` does) |
| AnchorLinks.SpineInsertAt | mkdocs/toc.py:118-126 | attaching a node under the stack top leaves the open parents' titles and urls in place and makes the node the newest on the right edge, so pushing it makes it the new top |
| AnchorLinks.FlattenInsertAt | mkdocs/toc.py:120-123 | attaching a node under the `depth`-th open parent (or at top level) appends its listing at the end of the document-order listing, at that depth |
| Toc.Classify | mkdocs/toc.py:109-129 | a line becomes a link iff its anchor title is non-empty and `href` is present, carrying that title and `href`, and opening a list iff the line ends with `<ul>` (`EndsWith`, line 125); it closes a list iff the title is empty and the line starts with `</ul>` (`StartsWith`, line 127); everything else is ignored |
| Toc.ClassifyByEvents | mkdocs/toc.py:109-116 | the decision restated over the callbacks: a link's title is the text inside anchors and its url the `href` of the tag that opened the last anchor |
| Toc.NoAnchorNoLink | mkdocs/toc.py:111-129 | a line without an `a` start tag never becomes a link, and closes a list iff it starts with `</ul>` |
| Toc.Apply | mkdocs/toc.py:111-129 | one iteration keeps the stack inside the tree; a link is pushed iff its line ends with `<ul>`; a close pops exactly one parent, or nothing when the stack is empty; an ignored line changes nothing |
| Toc.ApplyAddLink | mkdocs/toc.py:116-126 | a link is appended to the document-order listing at the current stack height, becomes the newest node on the right edge as a fresh `NewLink` with its title and url (the new top when pushed), and leaves the open parents' titles and urls in place |
| Toc.Run | mkdocs/toc.py:106-129 | the loop keeps the parent stack a path of open nodes in the tree |
| Toc.Window | mkdocs/toc.py:105 | `lines[2:-2]`, computed by `Text.Slice` with Python's bound normalisation `Text.SliceBound`, drops two lines at each end, and is empty for four lines or fewer |
| Toc.WindowOfWrapped | mkdocs/toc.py:105 | the window of a two-line header, a body and a two-line footer is the body |
| Toc.MarkFirstActive | mkdocs/toc.py:131-133 | only the first top-level entry changes, and only by becoming active; an empty result stays empty |
| Toc.MarkFirstActiveListing | mkdocs/toc.py:131-133 | marking changes exactly the first entry of the pre-order listing |
| Toc.Links | mkdocs/toc.py:108-129 | the reference listing has one inactive entry per line that becomes a link |
| Toc.RunMatchesLinks | mkdocs/toc.py:106-129 | the loop builds a forest whose pre-order listing is the reference listing, and ends with the reference stack height |
| Toc.IgnoredLineIsInvisible | mkdocs/toc.py:111-115 | removing an ignored line, such as an anchor without `href`, from anywhere in the processed lines changes nothing |
| Toc.UnbalancedCloseIsInvisible | mkdocs/toc.py:127-129 | a `</ul>` line with no list open changes nothing, wherever it occurs |
| Toc.UnbalancedTrailingClose | mkdocs/toc.py:105-129 | an extra `</ul>` line before the footer leaves the parsed table of contents unchanged |
| Toc.ParseTableOfContentsListing | mkdocs/toc.py:98-135 | `ParseTableOfContents`: the parsed forest in pre-order is the links of the processed lines in document order at their nesting depths, and exactly the first of them is active; the result is empty iff no line became a link |
| Toc.LinesIgnoreActive | mkdocs/toc.py:50-52 | the printout does not show the `active` flag |
| Toc.RenderedLinks | mkdocs/toc.py:29-55 | `NewTableOfContents(lines).ToString()`, i.e. `str(TableOfContents(html))`, prints one indented `title - url` line per link, in document order, at its nesting depth |
| TocExamples.TwoLevelFragment | mkdocs/toc.py:98-135 | a two-level fragment parses to A and B at top level, C under B, and A active |
| TocExamples.TwoLevelPrintout | mkdocs/toc.py:35-55 | that table prints as `A - #a\nB - #b\n    C - #c\n` |
| TocExamples.TwoAnchorsOnOneLine | mkdocs/toc.py:75-95 | a line with two anchors yields one link whose title concatenates both texts and whose url is the second anchor's `href` |

## Left out

- The HTML tokenizer itself (`HTMLParser`, the imports at mkdocs/toc.py:19-22, and `feed` at line 110) is not modelled. Each line arrives as the callbacks it produces. How text, tags and references are split into callbacks, and how incomplete trailing markup is buffered, are assumptions about the input rather than modelled behaviour.
- The `convert_charrefs` compatibility shim (lines 68-73) is not modelled. The model assumes its effect, namely that references reach the `handle_charref` and `handle_entityref` callbacks.
- The tokenizer's comment, declaration and processing-instruction callbacks are left out. They are no-ops in the base class and do not touch the parser's fields.
- `html.splitlines()` is not modelled. The fragment arrives already split into lines, each without its line terminator.
- The parser's unused `links` list (line 62) is left out.
- `TableOfContents.__iter__` (lines 32-33) is left out. The model reads `items` directly.
- The Markdown pre- and post-processing described in the module docstring (lines 9-14) is outside this file's code and is not modelled.
- Object identity is not modelled. The parent stack holds references into the mutable tree in the source. Here it is a depth along the forest's rightmost path. `Toc.ApplyAddLink` proves that after a link is added, the first `parents` spine nodes keep their titles and urls and the new link is spine node `parents`; no lemma states that the depth names the very node objects a Python stack would hold.
- Python 2 string conversion is not modelled. The source still supports Python 2 (`unicode_literals` at line 17, the import fallback at lines 19-22), where `str(item)` (lines 36, 47-48) encodes the text of `indent_print()` as ASCII and raises `UnicodeEncodeError` for a non-ASCII title or url. The model follows Python 3 `str`, so `Toc.RenderedLinks` gives a printout for every input.
- `AnchorLink.active` is not modelled as an optional attribute. Python sets the attribute only on `ret[0]`; the model gives every entry an `active` flag, false unless set.
