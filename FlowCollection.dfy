/** `composeFlowCollection` of src/compose/compose-flow-collection.ts: one
    left-to-right pass over the members of a `{ … }` or `[ … ]` collection
    that builds a map or a sequence. The locals that the inner closures
    `resetProps` and `addItem` update are the fields of `FlowComposer`.
    `composeNode` and `directives.tagName` are parameters: the model assumes
    nothing about them beyond giving every composed node a range; what they
    report to `onError` is returned with their result and joins `errors` at
    the point of the call. */
module FlowComposing {
  import opened Wrappers
  import opened JsStrings

  datatype Range = Range(start: int, end: int)

  /** A node of the document tree. A node built by `composeNode` is
      `External`: the model sees only its range and comment. The one-pair
      maps this pass builds itself are `PairMap`. */
  datatype Node = Node(content: Content, range: Option<Range>, comment: Option<string>)

  datatype Content = External(id: nat) | PairMap(key: Node, value: Node)

  /** A member of the result: a `Pair` of a map (`new Pair(value)` has the
      value as its key and no value), or a node of a sequence. */
  datatype Item = PairItem(key: Node, value: Option<Node>) | NodeItem(node: Node)

  /** The properties handed to `composeNode`. */
  datatype Props = Props(spaceBefore: bool, comment: string, anchor: string, tagName: string)

  /** What `composeNode` builds from: an empty node at an offset, or a
      member token that is not a source token. */
  datatype NodeSource = EmptyAt(offset: int) | FromToken(id: nat)

  /** A member of `fc.items`, by `token.type`; every other type of token
      is a node, passed to `composeNode`. */
  datatype Token =
    | Space(source: string)
    | CommentToken(source: string)
    | Newline(source: string)
    | AnchorToken(source: string)
    | TagToken(source: string)
    | ExplicitKeyInd(source: string)
    | MapValueInd(source: string)
    | Comma(source: string)
    | NodeToken(id: nat)

  /** The flow collection of the CST: its offset, the source of its start
      token, and its members. */
  datatype FlowCollection = FlowCollection(offset: int, start: string, items: seq<Token>)

  /** One call of `onError(offset, message)`. */
  datatype Error = Error(offset: int, message: string)

  /** The composed `YAMLMap` or `YAMLSeq`, and the anchor name it was
      registered under with `doc.anchors.setAnchor`, if any. */
  datatype Collection = Collection(isMap: bool, items: seq<Item>, range: Range, anchor: Option<string>)

  /** What `composeNode` returns, with what it reported to `onError`. */
  datatype Composed = Composed(node: Node, errors: seq<Error>)

  type Composer = (NodeSource, Props) -> Composed

  /** What `directives.tagName` returns for a tag's source, with the
      messages it reported. */
  datatype TagLookup = TagLookup(name: Option<string>, messages: seq<string>)

  const MissingBraces := "Missing {} around pair used as mapping key"
  const MissingComma := "Missing , between flow collection items"
  const SecondAnchor := "A node can have at most one anchor"
  const SecondTag := "A node can have at most one tag"
  const PropsBeforeKey := "Anchors and tags must be after the ? indicator"
  const TrailingCommentError := "Error adding trailing comment to node"

  /** Every node `composeNode` returns has a range. */
  ghost predicate ComposerRanged(compose: Composer)
  {
    forall s, p :: compose(s, p).node.range.Some?
  }

  predicate Ranged(n: Option<Node>)
  {
    n.Some? ==> n.value.range.Some?
  }

  /** `token.source.substring(1)`: the source without its indicator. */
  function AfterIndicator(source: string): (r: string)
    ensures source != "" ==> r == source[1..]
    ensures source == "" ==> r == ""
  {
    Substring(source, 1, |source|)
  }

  /** The errors reported at `offset` with `messages`. */
  function MessagesAt(offset: int, messages: seq<string>): (r: seq<Error>)
    ensures |r| == |messages|
    ensures forall k :: 0 <= k < |r| ==> r[k] == Error(offset, messages[k])
  {
    if messages == [] then [] else [Error(offset, messages[0])] + MessagesAt(offset, messages[1..])
  }

  /** The item `addItem` appends for the pending `key` and the settled
      value `v` (compose-flow-collection.ts:48-58). */
  function NewItem(isMap: bool, key: Option<Node>, v: Node): (r: Item)
    ensures r.PairItem? == isMap
    ensures isMap && key.None? ==> r == PairItem(v, None)
    ensures isMap && key.Some? ==> r == PairItem(key.value, Some(v))
    ensures !isMap && key.None? ==> r == NodeItem(v)
    ensures !isMap && key.Some? ==> r.node.content == PairMap(key.value, v) && r.node.range.None?
  {
    if isMap then
      if key.Some? then PairItem(key.value, Some(v)) else PairItem(v, None)
    else
      if key.Some? then NodeItem(Node(PairMap(key.value, v), None, None)) else NodeItem(v)
  }

  /** The same node, possibly with another comment. */
  predicate SameNode(a: Node, b: Node)
  {
    a.content == b.content && a.range == b.range
  }

  /** The node of an item that a trailing comment goes to: the value of a
      pair, or its key when it has none, or the node itself. */
  function WithItemComment(item: Item, c: string): (r: Item)
    ensures r.PairItem? == item.PairItem?
    ensures item.NodeItem? ==> SameNode(r.node, item.node) && r.node.comment == Some(c)
    ensures item.PairItem? ==> SameNode(r.key, item.key) && r.value.Some? == item.value.Some?
    ensures item.PairItem? && item.value.Some? ==>
      r.key == item.key && SameNode(r.value.value, item.value.value) && r.value.value.comment == Some(c)
    ensures item.PairItem? && item.value.None? ==> r.key.comment == Some(c)
  {
    match item
    case PairItem(k, Some(v)) => PairItem(k, Some(v.(comment := Some(c))))
    case PairItem(k, None) => PairItem(k.(comment := Some(c)), None)
    case NodeItem(n) => NodeItem(n.(comment := Some(c)))
  }

  /** The node with the pending comment, when there is one. */
  function Commented(n: Node, hasComment: bool, comment: string): Node
  {
    if hasComment then n.(comment := Some(comment)) else n
  }

  /** The pair used as a key of `{ a: 1 : 2 }`, wrapped in a map ranged from
      the start of the key to the end of the value. */
  function WrapPair(k: Node, v: Node): (r: Node)
    requires k.range.Some? && v.range.Some?
    ensures r.content == PairMap(k, v) && r.comment.None?
    ensures r.range == Some(Range(k.range.value.start, v.range.value.end))
  {
    Node(PairMap(k, v), Some(Range(k.range.value.start, v.range.value.end)), None)
  }

  /** The number of `comma` members. */
  function CommaCount(ts: seq<Token>): nat
  {
    if ts == [] then 0 else CommaCount(ts[..|ts| - 1]) + (if ts[|ts| - 1].Comma? then 1 else 0)
  }

  /** Whether a key or value is pending after member `t`, given whether one
      was before it: a comma completes the item, a node or `:` starts one,
      and the other members leave it as it was. */
  predicate PendingAfter(t: Token, before: bool)
  {
    if t.Comma? then false else if t.NodeToken? || t.MapValueInd? then true else before
  }

  /** Whether a key or value is pending after the members `ts`. */
  predicate Pending(ts: seq<Token>)
  {
    ts != [] && PendingAfter(ts[|ts| - 1], Pending(ts[..|ts| - 1]))
  }

  /** An item is pending exactly when a node or `:` follows the last
      comma. */
  lemma {:induction false} PendingMeans(ts: seq<Token>)
    ensures Pending(ts) <==> exists k :: 0 <= k < |ts| && (ts[k].NodeToken? || ts[k].MapValueInd?)
                                         && forall m :: k < m < |ts| ==> !ts[m].Comma?
    decreases |ts|
  {
    if ts != [] {
      var init, last := ts[..|ts| - 1], ts[|ts| - 1];
      PendingMeans(init);
      assert forall k :: 0 <= k < |init| ==> init[k] == ts[k];
      if !last.Comma? && !last.NodeToken? && !last.MapValueInd? && Pending(init) {
        var k :| 0 <= k < |init| && (init[k].NodeToken? || init[k].MapValueInd?)
                 && forall m :: k < m < |init| ==> !init[m].Comma?;
        assert forall m :: k < m < |ts| ==> !ts[m].Comma?;
      }
    }
  }

  /** No member of `ts` is a node. */
  predicate NoNodes(ts: seq<Token>)
  {
    forall i :: 0 <= i < |ts| ==> !ts[i].NodeToken?
  }

  /** The total length of the source tokens of `ts`. */
  function SourceLength(ts: seq<Token>): nat
  {
    if ts == [] then 0
    else SourceLength(ts[..|ts| - 1]) + (if ts[|ts| - 1].NodeToken? then 0 else |ts[|ts| - 1].source|)
  }

  /** The state of one run of `composeFlowCollection`. */
  class FlowComposer {
    const isMap: bool
    const compose: Composer
    const tagNames: string -> TagLookup
    var offset: int
    var key: Option<Node>
    var value: Option<Node>
    var spaceBefore: bool
    var comment: string
    var hasComment: bool
    var newlines: string
    var anchor: string
    var tagName: string
    var atValueEnd: bool
    var items: seq<Item>
    var errors: seq<Error>

    constructor (isMap: bool, offset: int, compose: Composer, tagNames: string -> TagLookup)
      requires ComposerRanged(compose)
      ensures this.isMap == isMap && this.offset == offset
      ensures this.compose == compose && this.tagNames == tagNames
      ensures key.None? && value.None? && items == [] && errors == []
      ensures NoProps() && !atValueEnd
      ensures Valid()
    {
      this.isMap := isMap;
      this.compose := compose;
      this.tagNames := tagNames;
      this.offset := offset;
      key := None;
      value := None;
      spaceBefore := false;
      comment := "";
      hasComment := false;
      newlines := "";
      anchor := "";
      tagName := "";
      atValueEnd := false;
      items := [];
      errors := [];
    }

    /** The items have the kind of the collection, and the pending key and
        value have ranges. */
    ghost predicate Valid()
      reads this`items, this`key, this`value
    {
      ComposerRanged(compose)
      && (forall i :: 0 <= i < |items| ==> items[i].PairItem? == isMap)
      && Ranged(key) && Ranged(value)
    }

    /** The props a node composed now would get. */
    function CurrentProps(): Props
      reads this`spaceBefore, this`comment, this`anchor, this`tagName
    {
      Props(spaceBefore, comment, anchor, tagName)
    }

    /** Nothing is pending that `resetProps` clears. */
    predicate NoProps()
      reads this`spaceBefore, this`comment, this`hasComment, this`newlines, this`anchor, this`tagName
    {
      !spaceBefore && comment == "" && !hasComment && newlines == "" && anchor == "" && tagName == ""
    }

    /** The value `addItem` settles on: the pending value with the pending
        comment, or an empty node composed from the pending props. */
    function SettledValue(): (v: Node)
      reads this`value, this`hasComment, this`comment, this`spaceBefore, this`anchor, this`tagName, this`offset
      ensures value.Some? && !hasComment ==> v == value.value
      ensures value.Some? && hasComment ==> v == value.value.(comment := Some(comment))
      ensures value.None? ==> v == compose(EmptyAt(offset), CurrentProps()).node
    {
      match value
      case Some(n) => if hasComment then n.(comment := Some(comment)) else n
      case None => compose(EmptyAt(offset), CurrentProps()).node
    }

    /** What composing the settled value reports: nothing for a pending
        value. */
    function SettledErrors(): (r: seq<Error>)
      reads this`value, this`spaceBefore, this`comment, this`anchor, this`tagName, this`offset
      ensures value.Some? ==> r == []
      ensures value.None? ==> r == compose(EmptyAt(offset), CurrentProps()).errors
    {
      if value.Some? then [] else compose(EmptyAt(offset), CurrentProps()).errors
    }

    /** `resetProps`. */
    method ResetProps()
      modifies this`spaceBefore, this`comment, this`hasComment, this`newlines, this`anchor, this`tagName,
        this`atValueEnd
      ensures NoProps() && !atValueEnd
    {
      spaceBefore := false;
      comment := "";
      hasComment := false;
      newlines := "";
      anchor := "";
      tagName := "";
      atValueEnd := false;
    }

    /** `addItem`: settle the value and append the item it makes with the
        pending key; then clear the props. */
    method AddItem()
      requires Valid()
      modifies this`value, this`items, this`errors, this`spaceBefore, this`comment, this`hasComment,
        this`newlines, this`anchor, this`tagName, this`atValueEnd
      ensures Valid()
      ensures value == Some(old(SettledValue()))
      ensures items == old(items) + [NewItem(isMap, key, old(SettledValue()))]
      ensures errors == old(errors) + old(SettledErrors())
      ensures NoProps() && !atValueEnd
    {
      var v := SettledValue();
      errors := errors + SettledErrors();
      value := Some(v);
      items := items + [NewItem(isMap, key, v)];
      ResetProps();
    }

    /** A `comment` member: the first comment of an item marks a blank line
        before it; later ones are joined with the newlines between. */
    method OnComment(source: string)
      modifies this`spaceBefore, this`comment, this`hasComment, this`newlines
      ensures old(hasComment) ==> (comment == old(comment) + old(newlines) + AfterIndicator(source)
         && spaceBefore == old(spaceBefore))
      ensures !old(hasComment) ==> (comment == AfterIndicator(source)
         && spaceBefore == (old(spaceBefore) || old(newlines) != ""))
      ensures hasComment && newlines == ""
    {
      var cb := AfterIndicator(source);
      if !hasComment {
        if newlines != "" {
          spaceBefore := true;
        }
        comment := cb;
      } else {
        comment := comment + newlines + cb;
      }
      hasComment := true;
      newlines := "";
    }

    /** A `newline` member: right after a comma it ends the item, and a
        pending comment goes to the item just added; elsewhere it is
        collected. */
    method OnNewline(source: string)
      requires Valid()
      modifies this`comment, this`hasComment, this`atValueEnd, this`newlines, this`items, this`errors
      ensures Valid()
      ensures !old(atValueEnd) ==> (newlines == old(newlines) + source
         && comment == old(comment) && hasComment == old(hasComment) && !atValueEnd
         && items == old(items) && errors == old(errors))
      ensures old(atValueEnd) && !old(hasComment) ==> (newlines == old(newlines)
         && comment == old(comment) && !hasComment && !atValueEnd
         && items == old(items) && errors == old(errors))
      ensures old(atValueEnd) && old(hasComment) ==> (newlines == old(newlines)
         && comment == "" && !hasComment && !atValueEnd)
      ensures old(atValueEnd) && old(hasComment) && old(items) != [] ==> (
         items == old(items[..|items| - 1]) + [WithItemComment(old(items[|items| - 1]), old(comment))]
         && errors == old(errors))
      ensures old(atValueEnd) && old(hasComment) && old(items) == [] ==> (
         items == [] && errors == old(errors) + [Error(offset, TrailingCommentError)])
    {
      if atValueEnd {
        if hasComment {
          if items != [] {
            items := items[..|items| - 1] + [WithItemComment(items[|items| - 1], comment)];
          } else {
            errors := errors + [Error(offset, TrailingCommentError)];
          }
          comment := "";
          hasComment := false;
        }
        atValueEnd := false;
      } else {
        newlines := newlines + source;
      }
    }

    /** An `anchor` member: a second one is an error, and the later one is
        kept. */
    method OnAnchor(source: string)
      modifies this`anchor, this`errors
      ensures anchor == AfterIndicator(source)
      ensures errors == old(errors) + if old(anchor) != "" then [Error(offset, SecondAnchor)] else []
    {
      if anchor != "" {
        errors := errors + [Error(offset, SecondAnchor)];
      }
      anchor := AfterIndicator(source);
    }

    /** A `tag` member: a second one is an error; the resolved name, when
        there is one, replaces the pending one, and what resolving it
        reported follows. */
    method OnTag(source: string)
      modifies this`tagName, this`errors
      ensures errors == old(errors) + (if old(tagName) != "" then [Error(offset, SecondTag)] else [])
                        + MessagesAt(offset, tagNames(source).messages)
      ensures tagName == match tagNames(source).name case Some(tn) => (if tn != "" then tn else old(tagName))
                                                      case None => old(tagName)
    {
      if tagName != "" {
        errors := errors + [Error(offset, SecondTag)];
      }
      var tn := tagNames(source);
      errors := errors + MessagesAt(offset, tn.messages);
      if tn.name.Some? && tn.name.value != "" {
        tagName := tn.name.value;
      }
    }

    /** An `explicit-key-ind` member (`?`): props before it are an error. */
    method OnExplicitKey()
      modifies this`errors
      ensures errors == old(errors) + if anchor != "" || tagName != "" then [Error(offset, PropsBeforeKey)] else []
    {
      if anchor != "" || tagName != "" {
        errors := errors + [Error(offset, PropsBeforeKey)];
      }
    }

    /** A `map-value-ind` member (`:`): pick the key, then give it the
        pending comment. */
    method OnMapValue()
      requires Valid()
      modifies this`key, this`value, this`errors, this`spaceBefore, this`comment, this`hasComment,
        this`newlines, this`anchor, this`tagName, this`atValueEnd
      ensures Valid() && key.Some? && value.None? && !hasComment
      ensures items == old(items)
      ensures old(hasComment) && (old(key).Some? || old(value).Some?) ==> key.value.comment == Some(old(comment))
      ensures old(key).Some? && old(value).Some? ==>
        key == Some(Commented(WrapPair(old(key).value, old(value).value), old(hasComment), old(comment)))
      ensures old(key).Some? && old(value).None? ==>
        key == Some(Commented(old(key).value, old(hasComment), old(comment)))
      ensures old(key).None? && old(value).Some? ==>
        key == Some(Commented(old(value).value, old(hasComment), old(comment)))
      ensures old(key).None? && old(value).None? ==> key == Some(compose(EmptyAt(offset), old(CurrentProps())).node)
      ensures old(key).Some? || old(value).Some? ==>
        spaceBefore == old(spaceBefore) && anchor == old(anchor) && tagName == old(tagName)
        && newlines == old(newlines) && atValueEnd == old(atValueEnd)
        && comment == (if old(hasComment) then "" else old(comment))
      ensures old(key).None? && old(value).None? ==> NoProps() && !atValueEnd
      ensures errors == old(errors) + if old(key).Some? && old(value).Some? then [Error(offset, MissingBraces)]
                                      else if old(key).None? && old(value).None? then
                                        compose(EmptyAt(offset), old(CurrentProps())).errors
                                      else []
    {
      ChooseKey();
      if hasComment {
        key := Some(key.value.(comment := Some(comment)));
        comment := "";
        hasComment := false;
      }
    }

    /** The key that `:` settles on (compose-flow-collection.ts:105-121): a
        pending pair is wrapped in a map, with an error; a lone value becomes
        the key; with neither, an empty node is composed as the key and the
        props are cleared. */
    method ChooseKey()
      requires Valid()
      modifies this`key, this`value, this`errors, this`spaceBefore, this`comment, this`hasComment,
        this`newlines, this`anchor, this`tagName, this`atValueEnd
      ensures Valid() && key.Some?
      ensures old(key).Some? && old(value).Some? ==> (
         key == Some(WrapPair(old(key).value, old(value).value)) && value.None?
         && errors == old(errors) + [Error(offset, MissingBraces)]
         && CurrentProps() == old(CurrentProps()) && hasComment == old(hasComment)
         && newlines == old(newlines) && atValueEnd == old(atValueEnd))
      ensures old(key).Some? && old(value).None? ==> (
         key == old(key) && value.None? && errors == old(errors)
         && CurrentProps() == old(CurrentProps()) && hasComment == old(hasComment)
         && newlines == old(newlines) && atValueEnd == old(atValueEnd))
      ensures old(key).None? && old(value).Some? ==> (
         key == old(value) && value.None? && errors == old(errors)
         && CurrentProps() == old(CurrentProps()) && hasComment == old(hasComment)
         && newlines == old(newlines) && atValueEnd == old(atValueEnd))
      ensures old(key).None? && old(value).None? ==> (
         key == Some(compose(EmptyAt(offset), old(CurrentProps())).node) && value.None?
         && errors == old(errors) + compose(EmptyAt(offset), old(CurrentProps())).errors
         && NoProps() && !atValueEnd)
    {
      if key.Some? {
        if value.Some? {
          errors := errors + [Error(offset, MissingBraces)];
          key := Some(WrapPair(key.value, value.value));
          value := None;
        }
      } else if value.Some? {
        key := value;
        value := None;
      } else {
        var k := compose(EmptyAt(offset), CurrentProps());
        key := Some(k.node);
        errors := errors + k.errors;
        ResetProps();
      }
    }

    /** A `comma` member: the item is complete. */
    method OnComma()
      requires Valid()
      modifies this`key, this`value, this`items, this`errors, this`spaceBefore, this`comment, this`hasComment,
        this`newlines, this`anchor, this`tagName, this`atValueEnd
      ensures Valid()
      ensures items == old(items) + [NewItem(isMap, old(key), old(SettledValue()))]
      ensures errors == old(errors) + old(SettledErrors())
      ensures key.None? && value.None? && NoProps() && atValueEnd
    {
      AddItem();
      atValueEnd := true;
      key := None;
      value := None;
    }

    /** Any other member is a node: a pending value means a comma is
        missing; the new value replaces it, and the offset moves to its
        end. */
    method OnNode(id: nat)
      requires Valid()
      modifies this`value, this`errors, this`offset
      ensures Valid()
      ensures value == Some(compose(FromToken(id), CurrentProps()).node)
      ensures errors == old(errors) + (if old(value).Some? then [Error(old(offset), MissingComma)] else [])
                        + compose(FromToken(id), CurrentProps()).errors
      ensures offset == value.value.range.value.end
    {
      if value.Some? {
        errors := errors + [Error(offset, MissingComma)];
      }
      var v := compose(FromToken(id), CurrentProps());
      value := Some(v.node);
      errors := errors + v.errors;
      offset := v.node.range.value.end;
    }

    /** One pass of the loop body: the member's case, then the offset moves
        past a source token. */
    method Step(t: Token)
      requires Valid()
      modifies this`key, this`value, this`items, this`errors, this`offset, this`spaceBefore, this`comment,
        this`hasComment, this`newlines, this`anchor, this`tagName, this`atValueEnd
      ensures Valid()
      ensures |items| == |old(items)| + (if t.Comma? then 1 else 0)
      ensures !t.NodeToken? ==> offset == old(offset) + |t.source|
      ensures t.NodeToken? ==> value.Some? && offset == value.value.range.value.end
      ensures t.Comma? ==> key.None? && value.None?
      ensures (key.Some? || value.Some?) == PendingAfter(t, old(key.Some? || value.Some?))
    {
      if t.NodeToken? {
        OnNode(t.id);
      } else {
        SourceStep(t);
        offset := offset + |t.source|;
      }
    }

    /** The source-token cases. */
    method SourceStep(t: Token)
      requires Valid() && !t.NodeToken?
      modifies this`key, this`value, this`items, this`errors, this`spaceBefore, this`comment,
        this`hasComment, this`newlines, this`anchor, this`tagName, this`atValueEnd
      ensures Valid()
      ensures |items| == |old(items)| + (if t.Comma? then 1 else 0)
      ensures t.Comma? ==> key.None? && value.None?
      ensures (key.Some? || value.Some?) == PendingAfter(t, old(key.Some? || value.Some?))
    {
      if t.Comma? || t.MapValueInd? || t.Newline? {
        StructureStep(t);
      } else {
        PropertyStep(t);
      }
    }

    /** `comma`, `map-value-ind` and `newline`. */
    method StructureStep(t: Token)
      requires Valid() && (t.Comma? || t.MapValueInd? || t.Newline?)
      modifies this`key, this`value, this`items, this`errors, this`spaceBefore, this`comment,
        this`hasComment, this`newlines, this`anchor, this`tagName, this`atValueEnd
      ensures Valid()
      ensures |items| == |old(items)| + (if t.Comma? then 1 else 0)
      ensures t.Comma? ==> key.None? && value.None?
      ensures (key.Some? || value.Some?) == PendingAfter(t, old(key.Some? || value.Some?))
    {
      if t.Comma? {
        OnComma();
      } else if t.MapValueInd? {
        OnMapValue();
      } else {
        OnNewline(t.source);
      }
    }

    /** `space`, `comment`, `anchor`, `tag` and `explicit-key-ind`. */
    method PropertyStep(t: Token)
      requires !(t.NodeToken? || t.Comma? || t.MapValueInd? || t.Newline?)
      modifies this`errors, this`spaceBefore, this`comment, this`hasComment, this`newlines, this`anchor,
        this`tagName
      ensures t.Space? ==> (errors == old(errors) && CurrentProps() == old(CurrentProps())
        && hasComment == old(hasComment) && newlines == old(newlines))
      ensures t.CommentToken? ==> (hasComment && newlines == "" && errors == old(errors)
        && anchor == old(anchor) && tagName == old(tagName))
      ensures t.AnchorToken? ==> (anchor == AfterIndicator(t.source) && tagName == old(tagName)
        && comment == old(comment) && hasComment == old(hasComment))
      ensures t.TagToken? ==> anchor == old(anchor) && comment == old(comment) && hasComment == old(hasComment)
      ensures t.ExplicitKeyInd? ==> (CurrentProps() == old(CurrentProps()) && hasComment == old(hasComment)
        && (errors == old(errors) <==> old(anchor) == "" && old(tagName) == ""))
    {
      match t
      case CommentToken(s) => OnComment(s);
      case AnchorToken(s) => OnAnchor(s);
      case TagToken(s) => OnTag(s);
      case ExplicitKeyInd(_) => OnExplicitKey();
      case Space(_) =>
    }
  }

  /** `composeFlowCollection(doc, fc, anchor, onError)`, with `onError`'s
      calls returned as `errors`. */
  method ComposeFlowCollection(fc: FlowCollection, anchorName: string, compose: Composer,
                               tagNames: string -> TagLookup)
    returns (coll: Collection, errors: seq<Error>)
    requires ComposerRanged(compose)
    ensures coll.isMap == (fc.start == "{")
    ensures coll.anchor == if anchorName != "" then Some(anchorName) else None
    ensures forall i :: 0 <= i < |coll.items| ==> coll.items[i].PairItem? == coll.isMap
    ensures |coll.items| == CommaCount(fc.items) + if Pending(fc.items) then 1 else 0
    ensures fc.items != [] && fc.items[|fc.items| - 1].Comma? ==> |coll.items| == CommaCount(fc.items)
    ensures fc.items != [] && fc.items[|fc.items| - 1].NodeToken? ==> |coll.items| == CommaCount(fc.items) + 1
    ensures coll.range.start == fc.offset
    ensures NoNodes(fc.items) ==> coll.range.end == fc.offset + SourceLength(fc.items)
  {
    var isMap := fc.start == "{";
    var c := new FlowComposer(isMap, fc.offset, compose, tagNames);
    var i := 0;
    while i < |fc.items|
      invariant 0 <= i <= |fc.items|
      invariant c.Valid() && c.isMap == isMap && c.compose == compose
      invariant |c.items| == CommaCount(fc.items[..i])
      invariant NoNodes(fc.items[..i]) ==> c.offset == fc.offset + SourceLength(fc.items[..i])
      invariant (c.key.Some? || c.value.Some?) == Pending(fc.items[..i])
    {
      assert fc.items[..i + 1][..i] == fc.items[..i];
      c.Step(fc.items[i]);
      i := i + 1;
    }
    assert fc.items[..i] == fc.items;
    if c.key.Some? || c.value.Some? {
      c.AddItem();
    }
    coll := Collection(isMap, c.items, Range(fc.offset, c.offset),
                       if anchorName != "" then Some(anchorName) else None);
    errors := c.errors;
  }
}
