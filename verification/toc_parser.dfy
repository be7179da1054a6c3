/**
 The per-line `TOCParser` of mkdocs/toc.py: a small state machine driven by
 the callbacks an HTML tokenizer makes for one line of table-of-contents
 markup. It remembers whether an `<a>` element is open, the attributes of the
 anchor that opened it, and the text seen inside anchors. Character and entity
 references are written back into the title as literal `&#N;` / `&name;`
 text, never decoded.

 The tokenizer itself is not modelled: a line reaches this module as the
 sequence of callbacks it produces.
 */
module TocParser {
  import opened Wrappers

  /** One attribute of a start tag; a value-less attribute (`<a href>`) carries `None`. */
  datatype Attribute = Attribute(name: string, value: Option<string>)

  /** A tokenizer callback: `handle_starttag`, `handle_endtag`, `handle_data`, `handle_charref`, `handle_entityref`. */
  datatype Event =
    | StartTag(tag: string, attrs: seq<Attribute>)
    | EndTag(tag: string)
    | Data(data: string)
    | CharRef(ref: string)
    | EntityRef(ref: string)

  /** The dictionary built from a start tag's attribute list. */
  type Attrs = map<string, Option<string>>

  /** The fields of a parser that its callbacks update; `attrs` is `None` until an anchor opens. */
  datatype ParserState = ParserState(inAnchor: bool, attrs: Option<Attrs>, title: string)

  /** A freshly constructed parser. */
  const Fresh: ParserState := ParserState(false, None, "")

  /** Attribute `i` is the last one in the list with its name. */
  predicate LastWithName(attrs: seq<Attribute>, i: int)
    requires 0 <= i < |attrs|
  {
    forall j :: i < j < |attrs| ==> attrs[j].name != attrs[i].name
  }

  /** `dict(attrs)`: the keys are exactly the listed names. */
  function ToDict(attrs: seq<Attribute>): (d: Attrs)
    ensures d.Keys == set i | 0 <= i < |attrs| :: attrs[i].name
  {
    if attrs == [] then map[]
    else
      var init, last := attrs[..|attrs| - 1], attrs[|attrs| - 1];
      assert (set i | 0 <= i < |attrs| :: attrs[i].name) == (set i | 0 <= i < |init| :: init[i].name) + {last.name};
      ToDict(init)[last.name := last.value]
  }

  /** A name listed more than once keeps the value of its last occurrence in `dict(attrs)`. */
  lemma {:induction false} ToDictLastWins(attrs: seq<Attribute>, i: int)
    requires 0 <= i < |attrs| && LastWithName(attrs, i)
    ensures ToDict(attrs)[attrs[i].name] == attrs[i].value
  {
    var n := |attrs| - 1;
    if i < n {
      var init := attrs[..n];
      assert attrs[n].name != attrs[i].name;
      assert LastWithName(init, i) by {
        forall j | i < j < |init|
          ensures init[j].name != init[i].name
        {
          assert init[j] == attrs[j];
        }
      }
      ToDictLastWins(init, i);
    }
  }

  /** `handle_starttag`: only an `a` tag seen outside an anchor opens one and captures its attributes. */
  function HandleStartTag(s: ParserState, tag: string, attrs: seq<Attribute>): (r: ParserState)
    ensures r.title == s.title
    ensures s.inAnchor || tag != "a" ==> r == s
    ensures !s.inAnchor && tag == "a" ==> r.inAnchor && r.attrs == Some(ToDict(attrs))
  {
    if !s.inAnchor && tag == "a" then s.(inAnchor := true, attrs := Some(ToDict(attrs))) else s
  }

  /** `handle_endtag`: an `a` end tag closes the anchor; attributes and title are kept. */
  function HandleEndTag(s: ParserState, tag: string): (r: ParserState)
    ensures r.attrs == s.attrs && r.title == s.title
    ensures r.inAnchor <==> s.inAnchor && tag != "a"
  {
    if tag == "a" then s.(inAnchor := false) else s
  }

  /** `handle_data`: text is appended to the title only while an anchor is open. */
  function HandleData(s: ParserState, data: string): (r: ParserState)
    ensures r.inAnchor == s.inAnchor && r.attrs == s.attrs
    ensures s.inAnchor ==> r.title == s.title + data
    ensures !s.inAnchor ==> r.title == s.title
  {
    if s.inAnchor then s.(title := s.title + data) else s
  }

  /** `handle_entityref`: the reference is re-encoded as the literal text `&name;`. */
  function HandleEntityRef(s: ParserState, ref: string): (r: ParserState)
    ensures r.inAnchor == s.inAnchor && r.attrs == s.attrs
    ensures s.inAnchor ==> r.title == s.title + ['&'] + ref + [';']
    ensures !s.inAnchor ==> r.title == s.title
  {
    HandleData(s, "&" + ref + ";")
  }

  /** `handle_charref`: delegates to the entity handler with `#` in front, so the title gains `&#N;`. */
  function HandleCharRef(s: ParserState, ref: string): (r: ParserState)
    ensures r.inAnchor == s.inAnchor && r.attrs == s.attrs
    ensures s.inAnchor ==> r.title == s.title + ['&', '#'] + ref + [';']
    ensures !s.inAnchor ==> r.title == s.title
  {
    HandleEntityRef(s, "#" + ref)
  }

  /** The `a` start tag, whatever its attributes. */
  predicate IsAnchorStart(e: Event) {
    e.StartTag? && e.tag == "a"
  }

  /** The `a` end tag. */
  predicate IsAnchorEnd(e: Event) {
    e.EndTag? && e.tag == "a"
  }

  /** The text an event contributes to a title when an anchor is open: data verbatim, references as their literal markup. */
  function TextOf(e: Event): string {
    match e
    case Data(d) => d
    case CharRef(ref) => "&#" + ref + ";"
    case EntityRef(ref) => "&" + ref + ";"
    case StartTag(_, _) => ""
    case EndTag(_) => ""
  }

  /** Dispatches one callback to its handler. */
  function Step(s: ParserState, e: Event): (r: ParserState)
    ensures r.inAnchor <==> IsAnchorStart(e) || (s.inAnchor && !IsAnchorEnd(e))
    ensures r.attrs == if IsAnchorStart(e) && !s.inAnchor then Some(ToDict(e.attrs)) else s.attrs
    ensures r.title == if s.inAnchor then s.title + TextOf(e) else s.title
  {
    match e
    case StartTag(tag, attrs) => HandleStartTag(s, tag, attrs)
    case EndTag(tag) => HandleEndTag(s, tag)
    case Data(data) => HandleData(s, data)
    case CharRef(ref) => HandleCharRef(s, ref)
    case EntityRef(ref) => HandleEntityRef(s, ref)
  }

  /**
   `parser.feed(line)` on a fresh parser: the state after all of the line's
   callbacks. A non-empty title or an open anchor always comes with captured
   attributes, so the builder's `parser.attrs['href']` never indexes `None`.
   */
  function Feed(events: seq<Event>): (s: ParserState)
    ensures s.inAnchor ==> s.attrs.Some?
    ensures s.title != "" ==> s.attrs.Some?
  {
    if events == [] then Fresh else Step(Feed(events[..|events| - 1]), events[|events| - 1])
  }

  /** Feeding one more callback steps the state once. */
  lemma FeedSnoc(events: seq<Event>, e: Event)
    ensures Feed(events + [e]) == Step(Feed(events), e)
  {
    assert (events + [e])[..|events|] == events;
  }

  // A reference description of what a line's callbacks leave behind, stated
  // over the event sequence rather than through the state machine.

  /** Event `j` is an `a` start tag that no later `a` end tag follows. */
  ghost predicate OpenFrom(events: seq<Event>, j: int) {
    0 <= j < |events| && IsAnchorStart(events[j]) && forall k :: j < k < |events| ==> !IsAnchorEnd(events[k])
  }

  /** After `events`, an anchor is open: some `a` start tag is not followed by an `a` end tag. */
  ghost predicate AnchorOpen(events: seq<Event>) {
    exists j :: OpenFrom(events, j)
  }

  /** The concatenated text of every event that arrives while an anchor is open. */
  ghost function AnchorText(events: seq<Event>): string {
    if events == [] then ""
    else
      var init := events[..|events| - 1];
      AnchorText(init) + (if AnchorOpen(init) then TextOf(events[|events| - 1]) else "")
  }

  /** Event `j` opens an anchor: an `a` start tag arriving while none is open. */
  ghost predicate Opens(events: seq<Event>, j: int) {
    0 <= j < |events| && IsAnchorStart(events[j]) && !AnchorOpen(events[..j])
  }

  /** One more callback leaves an anchor open iff it opens one, or one was open and it does not close it. */
  lemma AnchorOpenSnoc(events: seq<Event>)
    requires events != []
    ensures var n := |events| - 1;
      AnchorOpen(events) <==> IsAnchorStart(events[n]) || (AnchorOpen(events[..n]) && !IsAnchorEnd(events[n]))
  {
    var n := |events| - 1;
    var init, e := events[..n], events[n];
    if IsAnchorStart(e) {
      assert OpenFrom(events, n);
    } else if IsAnchorEnd(e) {
      forall j | 0 <= j < |events|
        ensures !OpenFrom(events, j)
      {
        if j < n {
          assert IsAnchorEnd(events[n]);
        }
      }
    } else {
      if AnchorOpen(init) {
        var j :| OpenFrom(init, j);
        assert OpenFrom(events, j);
      }
      if AnchorOpen(events) {
        var j :| OpenFrom(events, j);
        assert OpenFrom(init, j);
      }
    }
  }

  /** The state machine's `in_anchor` and `title` agree with the reference description. */
  lemma {:induction false} FeedMatchesReference(events: seq<Event>)
    ensures Feed(events).inAnchor <==> AnchorOpen(events)
    ensures Feed(events).title == AnchorText(events)
  {
    if events != [] {
      var n := |events| - 1;
      FeedMatchesReference(events[..n]);
      AnchorOpenSnoc(events);
    }
  }

  /** `attrs` stays `None` exactly when the line has no `a` start tag. */
  lemma {:induction false} FeedAttrsNone(events: seq<Event>)
    ensures Feed(events).attrs.None? <==> forall j :: 0 <= j < |events| ==> !IsAnchorStart(events[j])
  {
    if events != [] {
      var n := |events| - 1;
      FeedAttrsNone(events[..n]);
      assert forall j :: 0 <= j < n ==> events[..n][j] == events[j];
    }
  }

  /** The captured attributes are those of the `a` start tag that opened the most recent anchor. */
  lemma {:induction false} FeedAttrsFromLastOpening(events: seq<Event>, j: int)
    requires Opens(events, j)
    requires forall k :: j < k < |events| ==> !Opens(events, k)
    ensures Feed(events).attrs == Some(ToDict(events[j].attrs))
  {
    var n := |events| - 1;
    var init := events[..n];
    if j == n {
      FeedMatchesReference(init);
    } else {
      assert init[..j] == events[..j];
      forall k | j < k < |init|
        ensures !Opens(init, k)
      {
        assert init[..k] == events[..k];
        assert !Opens(events, k);
      }
      FeedAttrsFromLastOpening(init, j);
      assert !Opens(events, n);
      FeedMatchesReference(init);
    }
  }
}
