/** The streaming lexer of src/stream/lexer.ts: a state machine over a text
    buffer that splits YAML source into tokens. Each token is either a slice
    of the source or a marker. The `push` callback is modelled by `tokens`,
    the sequence of everything pushed so far. */
module Lexing {
  import opened Wrappers
  import opened JsStrings
  import opened LexerSpec

  class Lexer {
    var atEnd: bool
    var buffer: string
    var flowLevel: int
    var indent: nat
    var indentMore: string
    var next: Option<State>
    var pos: nat
    /** Every token handed to `push`, in order. */
    var tokens: seq<Token>

    constructor ()
      ensures !atEnd && buffer == "" && flowLevel == 0 && indent == 0 && indentMore == ""
      ensures next == None && pos == 0 && tokens == []
    {
      atEnd := false;
      buffer := "";
      flowLevel := 0;
      indent := 0;
      indentMore := "";
      next := None;
      pos := 0;
      tokens := [];
    }

    /** The part of the buffer not yet pushed. */
    function Unconsumed(): string
      reads this`buffer, this`pos
    {
      buffer[Min(pos, |buffer|)..]
    }

    /** The text pushed so far, followed by the text still waiting in the
        buffer. No step of the lexer changes it: tokens neither lose nor
        invent source text. */
    function Seen(): string
      reads this`tokens, this`buffer, this`pos
    {
      TextOf(tokens) + Unconsumed()
    }

    /** A step keeps the source text: it only appends tokens, and only
        moves text from the buffer into them. */
    twostate predicate Lossless()
      reads this`tokens, this`buffer, this`pos
    {
      old(tokens) <= tokens && Seen() == old(Seen())
    }

    /** A step that returns no next state has stopped to wait for more input:
        it kept the rest of the buffer and recorded where to resume. Only an
        unterminated quoted scalar is left waiting at the end of input. */
    predicate Stopped(r: Option<State>)
      reads this`pos, this`next, this`atEnd
    {
      r.None? ==> pos == 0 && next.Some? && (atEnd ==> next == Some(QuotedScalar))
    }

    /** The state the lexer goes on with has the flow depth it expects. */
    predicate NextFits(r: Option<State>)
      reads this`next, this`flowLevel
    {
      match r
      case Some(s) => FlowLevelFits(s, flowLevel)
      case None => next.Some? && FlowLevelFits(next.value, flowLevel)
    }

    /** `charAt`: the character `n` places after the position, or
        `undefined` outside the buffer. */
    function CharAt(n: int): (r: Option<char>)
      reads this`buffer, this`pos
      ensures r.Some? <==> 0 <= pos + n < |buffer|
      ensures r.Some? ==> r.value == buffer[pos + n]
    {
      At(buffer, pos + n)
    }

    /** `hasChars`: there are `n` characters left to peek. */
    function HasChars(n: nat): (r: bool)
      reads this`buffer, this`pos
      ensures r <==> pos <= |buffer| && |Peek(n)| == n
    {
      pos + n <= |buffer|
    }

    /** `peek`: the next `n` characters, or as many as the buffer holds. */
    function Peek(n: nat): (r: string)
      reads this`buffer, this`pos
      ensures pos <= |buffer| ==> r == buffer[pos..Min(pos + n, |buffer|)]
      ensures pos > |buffer| ==> r == ""
    {
      Substr(buffer, pos, n)
    }

    /** `getLine`: the rest of the current line without its line break, or
        `null` when the line may continue in input not yet seen. */
    function GetLine(): (r: Option<string>)
      reads this`buffer, this`pos, this`atEnd
      ensures r.None? <==> !atEnd && forall k :: pos <= k < |buffer| ==> buffer[k] != '\n'
      ensures r.Some? ==> forall k :: 0 <= k < |r.value| ==> r.value[k] != '\n'
      ensures r.Some? && pos <= |buffer| && !SplitBreak(buffer, pos) ==> IsLineAt(buffer, pos, r.value)
    {
      LineAt(buffer, pos, atEnd)
    }

    /** The indentation that continuation lines of a scalar need
        (`reqIndent`). */
    function ReqIndent(): nat
      reads this`indent, this`indentMore
    {
      RequiredIndent(indent, indentMore)
    }

    /** `atLineEnd`: the rest of the line is blank or a comment. */
    method AtLineEnd() returns (r: bool)
      ensures r == BlankOrCommentFrom(buffer, pos)
    {
      var i := pos;
      var ch := At(buffer, i);
      while ch == Some(' ')
        invariant pos <= i && ch == At(buffer, i)
        invariant SpacesFrom(buffer, pos) == (i - pos) + SpacesFrom(buffer, i)
        decreases |buffer| - i
      {
        i := i + 1;
        ch := At(buffer, i);
      }
      if ch.None? || ch == Some('#') || ch == Some('\n') {
        return true;
      }
      if ch == Some('\r') {
        return At(buffer, i + 1) == Some('\n');
      }
      return false;
    }

    /** `setNext`: drop the pushed part of the buffer and stop in `state`. */
    method SetNext(state: State) returns (r: Option<State>)
      modifies this`buffer, this`pos, this`next
      ensures buffer == old(Unconsumed()) && pos == 0 && next == Some(state) && r == None
      ensures Seen() == old(Seen())
    {
      buffer := Substring(buffer, pos, |buffer|);
      pos := 0;
      next := Some(state);
      return None;
    }

    /** `pushCount`: push the next `n` characters. `pos` advances by `n` even
        when fewer remain. */
    method PushCount(n: int) returns (r: nat)
      modifies this`pos, this`tokens
      ensures n > 0 ==> r == n && tokens == old(tokens) + [Text(Substr(buffer, old(pos), n))]
      ensures n <= 0 ==> r == 0 && tokens == old(tokens)
      ensures pos == old(pos) + r
      ensures Lossless()
    {
      if n > 0 {
        PushSlice(tokens, buffer, Min(pos, |buffer|), Min(pos + n, |buffer|));
        tokens := tokens + [Text(Substr(buffer, pos, n))];
        pos := pos + n;
        return n;
      }
      return 0;
    }

    /** `pushToIndex`: push the buffer up to index `i`, if that is not empty. */
    method PushToIndex(i: int) returns (r: nat)
      modifies this`pos, this`tokens
      ensures r == |Slice(buffer, old(pos), i)|
      ensures tokens == old(tokens) + Pushed(Slice(buffer, old(pos), i))
      ensures pos == old(pos) + r
      ensures old(pos) <= i <= |buffer| ==> pos == i
      ensures Lossless()
    {
      var s := Slice(buffer, pos, i);
      if s != "" {
        PushSlice(tokens, buffer, pos, pos + |s|);
        tokens := tokens + [Text(s)];
        pos := pos + |s|;
        return |s|;
      }
      return 0;
    }

    /** `pushSpaces`: push the run of spaces at `pos`. */
    method PushSpaces() returns (n: nat)
      modifies this`pos, this`tokens
      ensures n == SpacesFrom(buffer, old(pos))
      ensures tokens == old(tokens) + if n > 0 then [Text(Spaces(n))] else []
      ensures pos == old(pos) + n
      ensures Lossless()
    {
      n := CountSpaces(buffer, pos);
      if n > 0 {
        var s := Substr(buffer, pos, n);
        OnlySpacesAt(buffer, pos, pos + n);
        assert s == buffer[pos..pos + n];
        PushSlice(tokens, buffer, pos, pos + n);
        tokens := tokens + [Text(s)];
        pos := pos + n;
      }
    }

    /** `pushNewline`: push the line break at `pos`, if there is one. */
    method PushNewline() returns (n: nat)
      modifies this`pos, this`tokens
      ensures old(CharAt(0)) == Some('\n') ==> n == 1 && tokens == old(tokens) + [Text("\n")]
      ensures old(CharAt(0)) == Some('\r') && old(CharAt(1)) == Some('\n') ==>
        n == 2 && tokens == old(tokens) + [Text("\r\n")]
      ensures !(old(CharAt(0)) == Some('\n') || (old(CharAt(0)) == Some('\r') && old(CharAt(1)) == Some('\n')))
        ==> n == 0 && tokens == old(tokens)
      ensures n == BreakLength(buffer, old(pos))
      ensures tokens == old(tokens) + BreakPushed(buffer, old(pos))
      ensures pos == old(pos) + n
      ensures Lossless()
    {
      var ch := At(buffer, pos);
      if ch == Some('\n') {
        assert Substr(buffer, pos, 1) == [buffer[pos]];
        n := PushCount(1);
      } else if ch == Some('\r') && CharAt(1) == Some('\n') {
        assert Substr(buffer, pos, 2) == [buffer[pos], buffer[pos + 1]];
        n := PushCount(2);
      } else {
        n := 0;
      }
    }

    /** `pushUntil`: push characters up to the first one that passes `test`
        (the end of the buffer always does). */
    method PushUntil(test: Option<char> -> bool) returns (n: nat)
      requires test(None)
      modifies this`pos, this`tokens
      ensures forall k :: old(pos) <= k < pos ==> !test(At(buffer, k))
      ensures test(At(buffer, pos))
      ensures pos == old(pos) + n
      ensures n > 0 ==> pos <= |buffer|
      ensures tokens == old(tokens) + if n > 0 then [Text(buffer[old(pos)..pos])] else []
      ensures Lossless()
    {
      var i := pos;
      while !test(At(buffer, i))
        invariant pos <= i && (i > pos ==> i <= |buffer|)
        invariant forall k :: pos <= k < i ==> !test(At(buffer, k))
        decreases |buffer| - i
      {
        i := i + 1;
      }
      n := PushToIndex(i);
    }
  
    /** `pushIndicators`: push the node properties (`!tag`, `&anchor`,
        `*alias`) and the `:`, `?` and `-` indicators in front of a node, each
        with the spaces after it. Every `:`, `?` or `-` widens `indentMore` by
        two spaces. It stops at the first character that starts neither. */
    method PushIndicators() returns (n: nat)
      modifies this`pos, this`tokens, this`indentMore
      ensures pos == IndicatorsEnd(buffer, old(pos)) && pos == old(pos) + n
      ensures Lossless()
      ensures GrownBySpaces(old(indentMore), indentMore)
      ensures !IsPropertyStart(CharAt(0)) && !StartsBlockIndicatorAt(buffer, pos)
      decreases |buffer| - pos
    {
      var c := CharAt(0);
      if IsPropertyStart(c) {
        var a := PushProperty();
        var rest := PushIndicators();
        n := a + rest;
      } else if IsBlockIndicator(c) && IsEmpty(CharAt(1)) {
        indentMore := indentMore + "  ";
        var a := PushIndicatorAndSpaces();
        var rest := PushIndicators();
        GrownBySpacesAfterTwo(old(indentMore), indentMore);
        n := a + rest;
      } else {
        n := 0;
        assert indentMore == old(indentMore) + Spaces(0);
      }
    }

    /** One property of `pushIndicators`: the anchor, tag or alias up to the
        first character that cannot be part of its name, then the spaces after
        it. */
    method PushProperty() returns (n: nat)
      requires IsPropertyStart(CharAt(0))
      modifies this`pos, this`tokens
      ensures n > 0 && pos == old(pos) + n
      ensures pos == AfterIndicator(buffer, old(pos))
      ensures Lossless()
    {
      var a := PushUntil(IsNotIdentifierChar);
      IdentifierEndIs(buffer, old(pos), pos);
      var sp := PushSpaces();
      n := a + sp;
    }

    /** One indicator of `pushIndicators`: the `:`, `?` or `-` at `pos` and
        the spaces after it. */
    method PushIndicatorAndSpaces() returns (n: nat)
      requires StartsBlockIndicatorAt(buffer, pos) && !IsPropertyStart(CharAt(0))
      modifies this`pos, this`tokens
      ensures n > 0 && pos == old(pos) + n
      ensures pos == AfterIndicator(buffer, old(pos))
      ensures Lossless()
    {
      var a := PushCount(1);
      var sp := PushSpaces();
      n := a + sp;
    }

    /** At `-` or `.` with too few characters to tell a document marker from
        content, while more input is to come. */
    predicate AwaitsMarker()
      reads this`buffer, this`pos, this`atEnd
    {
      (CharAt(0) == Some('-') || CharAt(0) == Some('.')) && !atEnd && !HasChars(4)
    }

    /** At the document marker made of three `c` (`---` or `...`) followed
        by white space or the end of input. */
    predicate AtMarker(c: char)
      reads this`buffer, this`pos, this`atEnd
    {
      !AwaitsMarker() && CharAt(0) == Some(c) && CharAt(1) == Some(c) && CharAt(2) == Some(c)
      && IsEmpty(CharAt(3))
    }

    /** The next state to run is consistent with the flow depth: `Stream`
        if none was recorded yet. */
    predicate Resumable()
      reads this`next, this`flowLevel
    {
      FlowLevelFits(next.GetOr(Stream), flowLevel)
    }

    /** `lex`: append `source` to the buffer and run the state machine from
        the recorded state until a step stops to wait for input or, on the
        final call, the buffer is used up. `fuel` bounds the number of steps;
        `left` is what remains of it. */
    method Lex(source: string, incomplete: bool, fuel: nat) returns (left: nat)
      modifies this`atEnd, this`buffer, this`pos, this`next, this`tokens, this`indent, this`indentMore, this`flowLevel
      ensures old(pos) <= |old(buffer)| ==> Seen() == old(Seen()) + source
      ensures old(tokens) <= tokens && atEnd == !incomplete
      ensures left > 0 && incomplete ==> pos == 0 && next.Some?
      ensures left > 0 && !incomplete ==>
        TextOf(tokens) == Seen() || (pos == 0 && next == Some(QuotedScalar))
      ensures old(Resumable()) ==> flowLevel >= 0
      ensures old(Resumable()) && left > 0 && incomplete ==> Resumable()
    {
      ghost var p0 := pos;
      if source != "" {
        buffer := buffer + source;
      }
      atEnd := !incomplete;
      if p0 <= |old(buffer)| {
        AppendUnconsumed(old(buffer), source, p0);
      }
      ghost var t0 := tokens;
      ghost var seen := Seen();
      var st := Some(next.GetOr(Stream));
      left := fuel;
      while st.Some? && (incomplete || HasChars(1)) && left > 0
        invariant t0 <= tokens && Seen() == seen && atEnd == !incomplete
        invariant st.None? ==> pos == 0 && next.Some? && (atEnd ==> next == Some(QuotedScalar))
        invariant old(Resumable()) ==> NextFits(st)
        decreases left
      {
        st := ParseNext(st.value);
        left := left - 1;
      }
    }

    /** `parseNext`: run the handler of `state`. */
    method ParseNext(state: State) returns (r: Option<State>)
      modifies this`buffer, this`pos, this`next, this`tokens, this`indent, this`indentMore, this`flowLevel
      ensures Lossless() && Stopped(r)
      ensures FlowLevelFits(state, old(flowLevel)) ==> NextFits(r)
    {
      match state
      case Stream | LineStart | BlockStart =>
        r := ParseLineState(state);
      case Doc | Flow =>
        r := ParseContentState(state);
      case QuotedScalar | BlockScalar | PlainScalar =>
        r := ParseScalarState(state);
    }

    /** The states of block context between and before content. */
    method ParseLineState(state: State) returns (r: Option<State>)
      requires state == Stream || state == LineStart || state == BlockStart
      modifies this`buffer, this`pos, this`next, this`tokens, this`indent, this`indentMore
      ensures Lossless() && Stopped(r)
      ensures flowLevel == 0 ==> NextFits(r)
    {
      if state == Stream {
        r := ParseStream();
      } else if state == LineStart {
        r := ParseLineStart();
      } else {
        r := ParseBlockStart();
      }
    }

    /** The states that read the content of a line. */
    method ParseContentState(state: State) returns (r: Option<State>)
      requires state == Doc || state == Flow
      modifies this`buffer, this`pos, this`next, this`tokens, this`indent, this`indentMore, this`flowLevel
      ensures Lossless() && Stopped(r)
      ensures FlowLevelFits(state, old(flowLevel)) ==> NextFits(r)
    {
      if state == Doc {
        r := ParseDocument();
      } else {
        r := ParseFlowCollection();
      }
    }

    /** The states that continue a scalar. */
    method ParseScalarState(state: State) returns (r: Option<State>)
      requires state == QuotedScalar || state == BlockScalar || state == PlainScalar
      modifies this`buffer, this`pos, this`next, this`tokens, this`indent, this`indentMore
      ensures Lossless() && Stopped(r)
      ensures FlowLevelFits(state, flowLevel) ==> NextFits(r)
    {
      if state == QuotedScalar {
        r := ParseQuotedScalar();
      } else if state == BlockScalar {
        r := ParseBlockScalar();
      } else {
        r := ParsePlainScalar();
      }
    }

    /** `parseStream`: between documents, a directive line or a blank or
        comment line is pushed with its line break; otherwise a `DOCUMENT`
        marker starts a document at this line. */
    method ParseStream() returns (r: Option<State>)
      modifies this`buffer, this`pos, this`next, this`tokens, this`indent, this`indentMore
      ensures Lossless() && Stopped(r)
      ensures flowLevel == 0 ==> NextFits(r)
      ensures LineAt(old(buffer), old(pos), atEnd).None? ==>
        r == None && next == Some(Stream) && buffer == old(Unconsumed()) && tokens == old(tokens)
    {
      var line := GetLine();
      assert line == LineAt(old(buffer), old(pos), atEnd);
      if line.None? {
        r := SetNext(Stream);
        return;
      }
      DirectiveLineAt(buffer, pos, atEnd, line.value);
      r := StreamLine(line.value);
    }

    /** `parseStream` on the line `line` read at `pos`: a directive line, or
        else a blank or comment line or the first line of a document. */
    method StreamLine(line: string) returns (r: Option<State>)
      requires At(line, 0) == Some('%') ==> IsLineAt(buffer, pos, line)
      modifies this`buffer, this`pos, this`next, this`tokens, this`indent, this`indentMore
      ensures Lossless() && Stopped(r)
      ensures flowLevel == 0 ==> NextFits(r)
      ensures At(line, 0) == Some('%') ==>
        r == Some(Stream) && buffer == old(buffer)
        && pos == old(pos) + |line| + BreakLength(buffer, old(pos) + |line|)
        && |tokens| > |old(tokens)| && tokens[|old(tokens)|] == Text(DirectivePart(line))
      ensures At(line, 0) != Some('%') && BlankOrCommentFrom(old(buffer), old(pos)) ==>
        r == Some(Stream) && buffer == old(buffer)
        && (IsLineAt(buffer, old(pos), line) ==> pos == old(pos) + |line| + BreakLength(buffer, old(pos) + |line|))
      ensures At(line, 0) != Some('%') && !BlankOrCommentFrom(old(buffer), old(pos)) ==>
        |tokens| > |old(tokens)| && tokens[|old(tokens)|] == DocumentMarker
    {
      if At(line, 0) == Some('%') {
        PushDirectiveLine(line);
        r := Some(Stream);
      } else {
        r := StreamContent(line);
      }
    }

    /** The rest of `parseStream`: a blank or comment line is pushed with
        its line break; any other line starts a document. */
    method StreamContent(line: string) returns (r: Option<State>)
      modifies this`buffer, this`pos, this`next, this`tokens, this`indent, this`indentMore
      ensures Lossless() && Stopped(r)
      ensures flowLevel == 0 ==> NextFits(r)
      ensures BlankOrCommentFrom(old(buffer), old(pos)) ==>
        r == Some(Stream) && buffer == old(buffer)
        && (IsLineAt(buffer, old(pos), line) ==> pos == old(pos) + |line| + BreakLength(buffer, old(pos) + |line|))
      ensures !BlankOrCommentFrom(old(buffer), old(pos)) ==>
        |tokens| > |old(tokens)| && tokens[|old(tokens)|] == DocumentMarker
    {
      var blank := AtLineEnd();
      if blank {
        PushBlankLine(line);
        return Some(Stream);
      }
      r := StartDocument();
    }

    /** The last branch of `parseStream`: push a `DOCUMENT` marker and read
        the line as the first of a document. */
    method StartDocument() returns (r: Option<State>)
      modifies this`buffer, this`pos, this`next, this`tokens, this`indent, this`indentMore
      ensures Lossless() && Stopped(r)
      ensures flowLevel == 0 ==> NextFits(r)
      ensures |tokens| > |old(tokens)| && tokens[|old(tokens)|] == DocumentMarker
    {
      TextOfPushMarker(tokens, DocumentMarker);
      tokens := tokens + [DocumentMarker];
      ghost var t := tokens;
      r := ParseLineStart();
      assert tokens[|old(tokens)|] == t[|old(tokens)|];
    }

    /** The directive branch of `parseStream`: the directive without a
        trailing comment and its trailing spaces, then those spaces, then
        the comment if any, then the line break. */
    method PushDirectiveLine(line: string)
      requires IsLineAt(buffer, pos, line) && line != "" && line[0] == '%'
      modifies this`pos, this`tokens
      ensures Lossless()
      ensures pos == old(pos) + |line| + BreakLength(buffer, old(pos) + |line|)
      ensures |tokens| > |old(tokens)| && tokens[|old(tokens)|] == Text(DirectivePart(line))
    {
      ghost var p0 := pos;
      var n := PushDirective(line);
      ghost var t := tokens;
      PushLineRest(line, n, p0);
      assert tokens[|old(tokens)|] == t[|old(tokens)|];
    }

    /** The directive part of a `%` line and the spaces after it. */
    method PushDirective(line: string) returns (n: nat)
      requires IsLineAt(buffer, pos, line) && line != "" && line[0] == '%'
      modifies this`pos, this`tokens
      ensures Lossless()
      ensures n <= |line| && pos == old(pos) + n
      ensures |tokens| > |old(tokens)| && tokens[|old(tokens)|] == Text(DirectivePart(line))
    {
      ghost var p0 := pos;
      var dirEnd := DirectiveEnd(line);
      SubstrOfLine(buffer, pos, line, dirEnd);
      var a := PushCount(dirEnd);
      ghost var t := tokens;
      SpacesWithinLine(buffer, p0, line, dirEnd);
      var sp := PushSpaces();
      n := a + sp;
      assert tokens[|old(tokens)|] == t[|old(tokens)|];
    }

    /** The end of a `%` line or a blank line in `parseStream`: the rest of
        the line (a comment, if any), then the line break. */
    method PushLineRest(line: string, n: int, ghost start: nat)
      modifies this`pos, this`tokens
      ensures Lossless()
      ensures IsLineAt(buffer, start, line) && old(pos) == start + n && n <= |line| ==>
        pos == start + |line| + BreakLength(buffer, start + |line|)
      ensures IsLineAt(buffer, start, line) && old(pos) == start + n && 0 <= n <= |line| ==>
        tokens == old(tokens) + (if |line| > n then [Text(line[n..])] else []) + BreakPushed(buffer, start + |line|)
    {
      if IsLineAt(buffer, start, line) && pos == start + n && 0 <= n <= |line| {
        LineEndTextIsRest(buffer, start, line, n);
      }
      var _ := PushCount(|line| - n);
      var _ := PushNewline();
    }

    /** The blank-line branch of `parseStream`: the spaces, then the rest of
        the line (a comment), then the line break. */
    method PushBlankLine(line: string)
      modifies this`pos, this`tokens
      ensures Lossless()
      ensures old(IsLineAt(buffer, pos, line)) ==>
        pos == old(pos) + |line| + BreakLength(buffer, old(pos) + |line|)
    {
      ghost var p0, onLine := pos, IsLineAt(buffer, pos, line);
      if onLine {
        SpacesWithinLine(buffer, p0, line, 0);
      }
      var sp := PushSpaces();
      assert onLine ==> IsLineAt(buffer, p0, line) && pos == p0 + sp && sp <= |line|;
      PushLineRest(line, sp, p0);
    }

    /** `parseDocument`: the content of a line in block context. After the
        leading spaces and the node properties and indicators, the next
        character decides: the end of the line or a comment, a flow
        collection's bracket, a quoted scalar, a block scalar header, or a
        plain scalar. */
    method ParseDocument() returns (r: Option<State>)
      modifies this`buffer, this`pos, this`next, this`tokens, this`indent, this`indentMore, this`flowLevel
      ensures Lossless() && Stopped(r)
      ensures old(flowLevel) == 0 ==> NextFits(r)
      ensures flowLevel == old(flowLevel) || (r == Some(Flow) && flowLevel == 1 && LastPushed(tokens, '{', '['))
      ensures LineAt(old(buffer), old(pos) + SpacesFrom(old(buffer), old(pos)), atEnd).None? ==>
        r == None && next == Some(Doc)
    {
      var _ := PushSpaces();
      ghost var p1 := pos;
      var line := GetLine();
      assert line == LineAt(old(buffer), p1, atEnd);
      if line.None? {
        r := SetNext(Doc);
        return;
      }
      var n; r, n := DocumentContent(line.value, p1);
    }

    /** The switch of `parseDocument` on the line `line` read at `pos`
        (`p1`): on the character after the node properties and indicators. */
    method DocumentContent(line: string, ghost p1: nat) returns (r: Option<State>, n: nat)
      requires LineAt(buffer, p1, atEnd) == Some(line) && pos == p1
      modifies this`buffer, this`pos, this`next, this`tokens, this`indent, this`indentMore, this`flowLevel
      ensures Lossless() && Stopped(r)
      ensures old(flowLevel) == 0 ==> NextFits(r)
      ensures flowLevel == old(flowLevel) || (r == Some(Flow) && flowLevel == 1 && LastPushed(tokens, '{', '['))
      ensures p1 + n == IndicatorsEnd(old(buffer), p1)
      ensures IsFlowStart(At(line, n)) ==> r == Some(Flow) && flowLevel == 1 && LastPushed(tokens, '{', '[')
      ensures IsFlowEnd(At(line, n)) ==> r == Some(Doc) && flowLevel == old(flowLevel) && LastPushed(tokens, '}', ']')
    {
      n := PushIndicators();
      r := DocumentSwitch(line, n, p1);
    }

    /** The cases of `parseDocument` on the character `n` into the line. */
    method DocumentSwitch(line: string, n: nat, ghost p1: nat) returns (r: Option<State>)
      requires LineAt(buffer, p1, atEnd) == Some(line) && pos == p1 + n
      modifies this`buffer, this`pos, this`next, this`tokens, this`indent, this`indentMore, this`flowLevel
      ensures Lossless() && Stopped(r)
      ensures old(flowLevel) == 0 ==> NextFits(r)
      ensures flowLevel == old(flowLevel) || (r == Some(Flow) && flowLevel == 1 && LastPushed(tokens, '{', '['))
      ensures IsFlowStart(At(line, n)) ==> r == Some(Flow) && flowLevel == 1 && LastPushed(tokens, '{', '[')
      ensures IsFlowEnd(At(line, n)) ==> r == Some(Doc) && flowLevel == old(flowLevel) && LastPushed(tokens, '}', ']')
    {
      var c := At(line, n);
      if c.None? || c == Some('#') {
        r := DocumentLineEnd(line, n, p1);
      } else if IsFlowStart(c) || IsFlowEnd(c) {
        r := DocumentBracket(line, n, p1);
      } else {
        r := DocumentScalar(line, n, c);
      }
    }

    /** The end-of-line case of `parseDocument`: push `line.length`
        characters from where the indicators ended, then a line break if one
        follows there, and go on with the next line. Past indicators this
        runs over the end of the line (`LineEndTextRunsOver`). */
    method DocumentLineEnd(line: string, n: nat, ghost p1: nat) returns (r: Option<State>)
      requires pos == p1 + n
      modifies this`buffer, this`pos, this`next, this`tokens, this`indent, this`indentMore
      ensures Lossless() && Stopped(r)
      ensures flowLevel == 0 ==> NextFits(r)
      ensures var e := old(pos) + |line|;
        old(tokens) + (if |line| > 0 then [Text(LineEndTextAsWritten(old(buffer), p1, line, n))] else [])
          + BreakPushed(old(buffer), e) <= tokens
    {
      ghost var e, t0 := pos + |line|, tokens;
      ghost var text := if |line| > 0 then [Text(LineEndTextAsWritten(buffer, p1, line, n))] else [];
      var a := PushCount(|line|);
      assert pos == e && tokens == t0 + text;
      var b := PushNewline();
      ghost var pushed := tokens;
      assert pushed == t0 + text + BreakPushed(buffer, e);
      r := ParseLineStart();
      assert pushed <= tokens;
    }

    /** The scalar cases of `parseDocument`: a quoted scalar, a block scalar
        after its header line, or a plain scalar. */
    method DocumentScalar(line: string, n: nat, c: Option<char>) returns (r: Option<State>)
      modifies this`buffer, this`pos, this`next, this`tokens, this`indent, this`indentMore
      ensures Lossless() && Stopped(r)
      ensures flowLevel == 0 ==> NextFits(r)
    {
      if c == Some('"') || c == Some('\'') {
        r := ParseQuotedScalar();
      } else if c == Some('|') || c == Some('>') {
        PushBlockScalarHeader(line, n);
        r := ParseBlockScalar();
      } else {
        r := ParsePlainScalar();
      }
    }

    /** The bracket cases of `parseDocument`: `{` or `[` starts a flow
        collection at depth one; `}` or `]` is an error, pushed as it is. */
    method DocumentBracket(line: string, n: nat, ghost p1: nat) returns (r: Option<State>)
      requires LineAt(buffer, p1, atEnd) == Some(line) && pos == p1 + n
      requires IsFlowStart(At(line, n)) || IsFlowEnd(At(line, n))
      modifies this`pos, this`tokens, this`flowLevel
      ensures Lossless()
      ensures IsFlowStart(At(line, n)) ==> r == Some(Flow) && flowLevel == 1 && LastPushed(tokens, '{', '[')
      ensures IsFlowEnd(At(line, n)) ==> r == Some(Doc) && flowLevel == old(flowLevel) && LastPushed(tokens, '}', ']')
    {
      PushBracket(line, n, p1);
      if line[n] == '{' || line[n] == '[' {
        flowLevel := 1;
        r := Some(Flow);
      } else {
        r := Some(Doc);
      }
    }

    /** `pushCount(1)` at a bracket: the line read at `p1` holds it at offset
        `n`, where `pos` now is. */
    method PushBracket(line: string, n: nat, ghost p1: nat)
      requires LineAt(buffer, p1, atEnd) == Some(line) && pos == p1 + n
      requires IsFlowStart(At(line, n)) || IsFlowEnd(At(line, n))
      modifies this`pos, this`tokens
      ensures Lossless()
      ensures n < |line| && tokens == old(tokens) + [Text([line[n]])] && pos == old(pos) + 1
    {
      var c := line[n];
      LineCharIsChar(buffer, p1, atEnd, n, c);
      assert Substr(buffer, pos, 1) == [c];
      var _ := PushCount(1);
    }

    /** The header of a block scalar in `parseDocument`: the `|` or `>` with
        its indicators up to white space, the spaces after it, the rest of
        the line (a comment) and the line break. */
    method PushBlockScalarHeader(line: string, n: nat)
      modifies this`pos, this`tokens
      ensures Lossless()
    {
      var u := PushUntil(IsEmpty);
      var sp := PushSpaces();
      PushLineRest(line, n + u + sp, pos);
    }

    /** `parseFlowCollection`: the content of a line inside a flow
        collection. After the line breaks and spaces, an optional `,` and
        the node properties and indicators, the next character decides: the
        end of the line or a comment, a bracket that opens or closes a
        collection, a quoted scalar, or a plain scalar. */
    method ParseFlowCollection() returns (r: Option<State>)
      modifies this`buffer, this`pos, this`next, this`tokens, this`indent, this`indentMore, this`flowLevel
      ensures Lossless() && Stopped(r)
      ensures old(flowLevel) >= 1 ==> NextFits(r) && (r == Some(Doc) <==> flowLevel == 0)
      ensures flowLevel == old(flowLevel)
        || (flowLevel == old(flowLevel) + 1 && r == Some(Flow) && LastPushed(tokens, '{', '['))
        || (flowLevel == old(flowLevel) - 1 && LastPushed(tokens, '}', ']'))
    {
      SkipFlowGap();
      ghost var p1 := pos;
      var line := GetLine();
      if line.None? {
        r := SetNext(Flow);
        return;
      }
      r := FlowContent(line.value, p1);
    }

    /** The loop `while (pushNewline() + pushSpaces() > 0) {}` of
        `parseFlowCollection`: push line breaks and spaces until neither
        follows. */
    method SkipFlowGap()
      modifies this`pos, this`tokens
      ensures Lossless() && old(pos) <= pos
      ensures BreakLength(buffer, pos) == 0 && SpacesFrom(buffer, pos) == 0
    {
      var n := PushGap();
      while n > 0
        invariant Lossless() && old(pos) <= pos
        invariant n > 0 ==> pos <= |buffer|
        invariant n == 0 ==> BreakLength(buffer, pos) == 0 && SpacesFrom(buffer, pos) == 0
        decreases |buffer| - pos + (if n > 0 then 1 else 0)
      {
        n := PushGap();
      }
    }

    /** One test of that loop: `pushNewline() + pushSpaces()`. */
    method PushGap() returns (n: nat)
      modifies this`pos, this`tokens
      ensures Lossless() && pos == old(pos) + n
      ensures n > 0 ==> pos <= |buffer|
      ensures n == 0 ==> BreakLength(buffer, pos) == 0 && SpacesFrom(buffer, pos) == 0
    {
      var a := PushNewline();
      var b := PushSpaces();
      n := a + b;
    }

    /** The switch of `parseFlowCollection` on the line `line` read at `pos`
        (`p1`): an optional comma first. */
    method FlowContent(line: string, ghost p1: nat) returns (r: Option<State>)
      requires LineAt(buffer, p1, atEnd) == Some(line) && pos == p1
      modifies this`buffer, this`pos, this`next, this`tokens, this`indent, this`indentMore, this`flowLevel
      ensures Lossless() && Stopped(r)
      ensures old(flowLevel) >= 1 ==> NextFits(r) && (r == Some(Doc) <==> flowLevel == 0)
      ensures flowLevel == old(flowLevel)
        || (flowLevel == old(flowLevel) + 1 && r == Some(Flow) && LastPushed(tokens, '{', '['))
        || (flowLevel == old(flowLevel) - 1 && LastPushed(tokens, '}', ']'))
    {
      var k := PushComma(line);
      r := FlowIndicated(line, p1, k);
    }

    /** The rest of that switch, from `k` characters into the line: the
        properties and indicators, then the character after them. */
    method FlowIndicated(line: string, ghost p1: nat, k: nat) returns (r: Option<State>)
      requires LineAt(buffer, p1, atEnd) == Some(line) && pos == p1 + k
      modifies this`buffer, this`pos, this`next, this`tokens, this`indent, this`indentMore, this`flowLevel
      ensures Lossless() && Stopped(r)
      ensures old(flowLevel) >= 1 ==> NextFits(r) && (r == Some(Doc) <==> flowLevel == 0)
      ensures flowLevel == old(flowLevel)
        || (flowLevel == old(flowLevel) + 1 && r == Some(Flow) && LastPushed(tokens, '{', '['))
        || (flowLevel == old(flowLevel) - 1 && LastPushed(tokens, '}', ']'))
    {
      var m := PushIndicators();
      r := FlowSwitch(line, k + m, p1);
    }

    /** The cases of that switch on the character `n` into the line. */
    method FlowSwitch(line: string, n: nat, ghost p1: nat) returns (r: Option<State>)
      requires LineAt(buffer, p1, atEnd) == Some(line) && pos == p1 + n
      modifies this`buffer, this`pos, this`next, this`tokens, this`indent, this`indentMore, this`flowLevel
      ensures Lossless() && Stopped(r)
      ensures old(flowLevel) >= 1 ==> NextFits(r) && (r == Some(Doc) <==> flowLevel == 0)
      ensures flowLevel == old(flowLevel)
        || (flowLevel == old(flowLevel) + 1 && r == Some(Flow) && LastPushed(tokens, '{', '['))
        || (flowLevel == old(flowLevel) - 1 && LastPushed(tokens, '}', ']'))
      ensures IsFlowStart(At(line, n)) ==>
        r == Some(Flow) && flowLevel == old(flowLevel) + 1 && LastPushed(tokens, '{', '[')
      ensures IsFlowEnd(At(line, n)) ==>
        r == Some(if flowLevel != 0 then Flow else Doc) && flowLevel == old(flowLevel) - 1
        && LastPushed(tokens, '}', ']')
    {
      var c := At(line, n);
      if c.None? || c == Some('#') {
        r := FlowLineEnd(line, n, p1);
      } else if IsFlowStart(c) || IsFlowEnd(c) {
        r := FlowBracket(line, n, p1);
      } else {
        r := FlowScalar(c);
      }
    }

    /** The end-of-line case of `parseFlowCollection`: push `line.length`
        characters from where the indicators ended, then a line break if one
        follows there; the collection goes on. As in `DocumentLineEnd`, this
        runs over the end of the line past indicators. */
    method FlowLineEnd(line: string, n: nat, ghost p1: nat) returns (r: Option<State>)
      requires pos == p1 + n
      modifies this`pos, this`tokens
      ensures Lossless() && r == Some(Flow)
      ensures var e := p1 + n + |line|;
        pos == e + BreakLength(buffer, e)
        && tokens == old(tokens) + (if |line| > 0 then [Text(LineEndTextAsWritten(buffer, p1, line, n))] else [])
                     + BreakPushed(buffer, e)
    {
      ghost var e, t0 := pos + |line|, tokens;
      ghost var text := if |line| > 0 then [Text(LineEndTextAsWritten(buffer, p1, line, n))] else [];
      var a := PushCount(|line|);
      assert pos == e && tokens == t0 + text;
      var b := PushNewline();
      assert pos == e + BreakLength(buffer, e) && tokens == t0 + text + BreakPushed(buffer, e);
      r := Some(Flow);
    }

    /** `line[0] === ',' ? pushCount(1) + pushSpaces() : 0`. */
    method PushComma(line: string) returns (n: nat)
      modifies this`pos, this`tokens
      ensures Lossless()
      ensures n == CommaLength(buffer, old(pos), line) && pos == old(pos) + n
    {
      if At(line, 0) == Some(',') {
        var a := PushCount(1);
        var sp := PushSpaces();
        n := a + sp;
      } else {
        n := 0;
      }
    }

    /** The bracket cases of `parseFlowCollection`: `{` or `[` opens a
        nested collection, `}` or `]` closes one; at depth zero the document
        goes on in block context. */
    method FlowBracket(line: string, n: nat, ghost p1: nat) returns (r: Option<State>)
      requires LineAt(buffer, p1, atEnd) == Some(line) && pos == p1 + n
      requires IsFlowStart(At(line, n)) || IsFlowEnd(At(line, n))
      modifies this`pos, this`tokens, this`flowLevel
      ensures Lossless()
      ensures IsFlowStart(At(line, n)) ==>
        r == Some(Flow) && flowLevel == old(flowLevel) + 1 && LastPushed(tokens, '{', '[')
      ensures IsFlowEnd(At(line, n)) ==>
        r == Some(if flowLevel != 0 then Flow else Doc) && flowLevel == old(flowLevel) - 1
        && LastPushed(tokens, '}', ']')
    {
      PushBracket(line, n, p1);
      if line[n] == '{' || line[n] == '[' {
        flowLevel := flowLevel + 1;
        r := Some(Flow);
      } else {
        flowLevel := flowLevel - 1;
        r := if flowLevel != 0 then Some(Flow) else Some(Doc);
      }
    }

    /** The scalar cases of `parseFlowCollection`. */
    method FlowScalar(c: Option<char>) returns (r: Option<State>)
      modifies this`buffer, this`pos, this`next, this`tokens
      ensures Lossless() && Stopped(r)
      ensures flowLevel >= 1 ==> NextFits(r) && r != Some(Doc)
    {
      if c == Some('"') || c == Some('\'') {
        r := ParseQuotedScalar();
      } else {
        r := ParsePlainScalar();
      }
    }

    /** `parseLineStart`: a document marker, or the indentation of a line. */
    method ParseLineStart() returns (r: Option<State>)
      modifies this`buffer, this`pos, this`next, this`tokens, this`indent, this`indentMore
      ensures Lossless() && Stopped(r)
      ensures flowLevel == 0 ==> NextFits(r)
      ensures r == None || r == Some(Doc) || r == Some(Stream)
      ensures old(AwaitsMarker()) ==>
        r == None && next == Some(LineStart) && buffer == old(Unconsumed()) && tokens == old(tokens)
      ensures !old(AwaitsMarker()) ==> r != None || next == Some(BlockStart)
    {
      var ch := CharAt(0);
      if (ch == Some('-') || ch == Some('.')) && !atEnd && !HasChars(4) {
        r := SetNext(LineStart);
        return;
      }
      r := LineStartContent();
    }

    /** `parseLineStart` once enough of the line is there to tell a document
        marker: `---` starts a document with no indentation, `...` ends one,
        and anything else is indentation. */
    method LineStartContent() returns (r: Option<State>)
      requires !AwaitsMarker()
      modifies this`buffer, this`pos, this`next, this`tokens, this`indent, this`indentMore
      ensures Lossless() && Stopped(r)
      ensures flowLevel == 0 ==> NextFits(r)
      ensures r == None || r == Some(Doc) || r == Some(Stream)
      ensures old(AtMarker('-')) ==>
        r == Some(Doc) && tokens == old(tokens) + [Text("---")] && indent == 0 && indentMore == ""
      ensures old(AtMarker('.')) ==>
        r == Some(Stream) && tokens == old(tokens) + [Text("...")]
        && indent == old(indent) && indentMore == old(indentMore)
      ensures old(!AtMarker('-') && !AtMarker('.')) ==>
        r != Some(Stream) && BlockIndicators(indentMore)
        && indent == old(SpacesFrom(buffer, pos)) + (if r == Some(Doc) then IndentGain(indentMore) else 0)
        && (r == None ==> next == Some(BlockStart))
    {
      var m := MarkerAt();
      if m == Some('-') {
        var _ := PushCount(3);
        indent := 0;
        indentMore := "";
        r := Some(Doc);
      } else if m == Some('.') {
        var _ := PushCount(3);
        r := Some(Stream);
      } else {
        r := ParseIndentation();
      }
    }

    /** The test of `parseLineStart` for a document marker: the three
        characters `peek(3)` returns and the white space or end after them. */
    method MarkerAt() returns (m: Option<char>)
      requires !AwaitsMarker()
      ensures m == Some('-') <==> AtMarker('-')
      ensures m == Some('.') <==> AtMarker('.')
      ensures m == None || m == Some('-') || m == Some('.')
      ensures m == Some('-') ==> Peek(3) == "---"
      ensures m == Some('.') ==> Peek(3) == "..."
    {
      var ch := CharAt(0);
      m := None;
      if ch == Some('-') || ch == Some('.') {
        var s := Peek(3);
        ThreeOf(buffer, pos, '-');
        ThreeOf(buffer, pos, '.');
        if s == "---" && IsEmpty(CharAt(3)) {
          m := Some('-');
        } else if s == "..." && IsEmpty(CharAt(3)) {
          m := Some('.');
        }
      }
    }

    /** The rest of `parseLineStart` when no document marker starts the
        line: the indentation, then the block indicators. */
    method ParseIndentation() returns (r: Option<State>)
      modifies this`buffer, this`pos, this`next, this`tokens, this`indent, this`indentMore
      ensures Lossless() && Stopped(r)
      ensures flowLevel == 0 ==> NextFits(r)
      ensures r == None || r == Some(Doc)
      ensures BlockIndicators(indentMore)
      ensures indent == old(SpacesFrom(buffer, pos)) + (if r == Some(Doc) then IndentGain(indentMore) else 0)
      ensures r == None ==> next == Some(BlockStart)
    {
      indent := PushSpaces();
      indentMore := "";
      r := ParseBlockStart();
    }

    /** `parseBlockStart`: the block indicators `-`, `?` and `:` at the start
        of a line. The text each one takes up, with its spaces, is appended to
        `indentMore`; nested indicators raise `indent` once all are read. */
    method ParseBlockStart() returns (r: Option<State>)
      modifies this`buffer, this`pos, this`next, this`tokens, this`indent, this`indentMore
      ensures Lossless() && Stopped(r)
      ensures flowLevel == 0 ==> NextFits(r)
      ensures r == None || r == Some(Doc)
      ensures |indentMore| - |old(indentMore)| == |old(Unconsumed())| - |Unconsumed()|
      ensures BlockIndicators(old(indentMore)) ==> BlockIndicators(indentMore)
      ensures r == Some(Doc) ==>
        !StartsBlockIndicatorAt(buffer, pos) && indent == old(indent) + IndentGain(indentMore)
      ensures r == Some(Doc) ==> (buffer == old(buffer) && old(pos) <= pos
        && (old(pos) <= |buffer| ==> pos <= |buffer|)
        && indentMore == old(indentMore) + Substring(buffer, old(pos), pos))
      ensures r == None ==> next == Some(BlockStart) && indent == old(indent)
      decreases |buffer| - pos, 1
    {
      // the two characters of `peek(2)`
      if CharAt(1).None? && !atEnd {
        r := SetNext(BlockStart);
        return;
      }
      if StartsBlockIndicatorAt(buffer, pos) {
        r := ParseAfterBlockIndicator();
        return;
      }
      if |indentMore| > 2 {
        var last := LastIndentMoreNonSpace();
        if last > 0 {
          indent := indent + last;
        }
      }
      r := Some(Doc);
    }

    /** The recursive case of `parseBlockStart`: push the indicator at
        `pos`, then go on from after it. */
    method ParseAfterBlockIndicator() returns (r: Option<State>)
      requires StartsBlockIndicatorAt(buffer, pos)
      modifies this`buffer, this`pos, this`next, this`tokens, this`indent, this`indentMore
      ensures Lossless() && Stopped(r)
      ensures flowLevel == 0 ==> NextFits(r)
      ensures r == None || r == Some(Doc)
      ensures |indentMore| - |old(indentMore)| == |old(Unconsumed())| - |Unconsumed()|
      ensures BlockIndicators(old(indentMore)) ==> BlockIndicators(indentMore)
      ensures r == Some(Doc) ==>
        !StartsBlockIndicatorAt(buffer, pos) && indent == old(indent) + IndentGain(indentMore)
      ensures r == Some(Doc) ==> (buffer == old(buffer) && old(pos) <= pos
        && (old(pos) <= |buffer| ==> pos <= |buffer|)
        && indentMore == old(indentMore) + Substring(buffer, old(pos), pos))
      ensures r == None ==> next == Some(BlockStart) && indent == old(indent)
      decreases |buffer| - pos, 0
    {
      ghost var p0, m0, u0, s0, t0 := pos, indentMore, Unconsumed(), Seen(), tokens;
      var _ := PushBlockIndicator();
      ghost var p1, m1, u1, t1 := pos, indentMore, Unconsumed(), tokens;
      assert |m1| - |m0| == |u0| - |u1| && Seen() == s0 && t0 <= t1;
      r := ParseBlockStart();
      assert |indentMore| - |m0| == |u0| - |Unconsumed()| && Seen() == s0 && t0 <= tokens;
      if r == Some(Doc) {
        SubstringJoin(buffer, p0, p1, pos);
        assert indentMore == m0 + Substring(buffer, p0, pos);
      }
    }

    /** One step of `parseBlockStart`: push the indicator at `pos` and the
        spaces after it, and append the same text to `indentMore`. */
    method PushBlockIndicator() returns (n: nat)
      requires StartsBlockIndicatorAt(buffer, pos)
      modifies this`pos, this`tokens, this`indentMore
      ensures Lossless()
      ensures n > 0 && pos == old(pos) + n <= |buffer|
      ensures indentMore == old(indentMore) + buffer[old(pos)..pos]
      ensures BlockIndicators(old(indentMore)) ==> BlockIndicators(indentMore)
    {
      var start := pos;
      var a := PushCount(1);
      var sp := PushSpaces();
      n := a + sp;
      ghost var added := buffer[start..pos];
      assert Substr(buffer, start, n) == added;
      if BlockIndicators(indentMore) {
        IndicatorStep(indentMore, buffer, start, pos);
      }
      indentMore := indentMore + Substr(buffer, start, n);
    }

    /** The loop of `parseBlockStart` that finds the last character of
        `indentMore` that is not a space. */
    method LastIndentMoreNonSpace() returns (last: int)
      ensures last == LastNonSpace(indentMore)
    {
      last := |indentMore| - 1;
      while At(indentMore, last) == Some(' ')
        invariant -1 <= last < |indentMore|
        invariant forall k :: last < k < |indentMore| ==> indentMore[k] == ' '
        decreases last
      {
        last := last - 1;
      }
    }

    // ---- Quoted scalars ----

    /** The search of `parseQuotedScalar` for the closing quote. */
    method QuotedScalarEnd() returns (end: int)
      ensures IsQuoteOrEnd(CharAt(0)) ==> end == QuoteEnd(buffer, pos)
      ensures end == -1 || pos < end < |buffer|
    {
      var quote := CharAt(0);
      if quote.None? {
        // `indexOf` from past the end of the buffer finds nothing
        return -1;
      }
      if quote == Some('\'') {
        end := SingleQuoteSearch(buffer, pos);
      } else {
        end := EscapedQuoteSearch(buffer, pos, quote.value);
      }
    }
    /** `parseQuotedScalar`: push the quoted scalar up to and including its
        closing quote, or, when the buffer does not hold that quote yet, stop
        to wait for more input. It waits even at the end of input. */
    method ParseQuotedScalar() returns (r: Option<State>)
      modifies this`buffer, this`pos, this`next, this`tokens
      ensures Lossless() && Stopped(r)
      ensures IsQuoteOrEnd(old(CharAt(0))) ==> (r == None <==> old(QuoteEnd(buffer, pos)) == -1)
      ensures r == None ==> next == Some(QuotedScalar) && buffer == old(Unconsumed()) && tokens == old(tokens)
      ensures r != None ==> r == Some(if flowLevel != 0 then Flow else Doc) && buffer == old(buffer)
      ensures r != None && IsQuoteOrEnd(old(CharAt(0))) ==>
        pos == old(QuoteEnd(buffer, pos)) + 1
        && tokens == old(tokens) + [Text(old(buffer[pos..QuoteEnd(buffer, pos) + 1]))]
      ensures flowLevel >= 0 ==> NextFits(r)
    {
      var end := QuotedScalarEnd();
      if end == -1 {
        r := SetNext(QuotedScalar);
        return;
      }
      var _ := PushToIndex(end + 1);
      r := if flowLevel != 0 then Some(Flow) else Some(Doc);
    }

    // ---- Block and plain scalars ----

    /** Push a `SCALAR` marker, then the buffer up to index `i`. */
    method PushScalar(i: int)
      modifies this`pos, this`tokens
      ensures tokens == old(tokens) + [ScalarMarker] + Pushed(Slice(buffer, old(pos), i))
      ensures pos == old(pos) + |Slice(buffer, old(pos), i)|
      ensures Lossless()
    {
      TextOfPushMarker(tokens, ScalarMarker);
      tokens := tokens + [ScalarMarker];
      var _ := PushToIndex(i);
    }

    /** `parseBlockScalar` up to the point where it hands on to
        `parseLineStart`: the scalar runs to (and includes) the line feed
        before the first non-blank line indented by fewer than `reqIndent`
        spaces. Without such a line, and with more input to come, it stops to
        wait. */
    method PushBlockScalar() returns (deferred: bool)
      modifies this`buffer, this`pos, this`next, this`tokens
      ensures Lossless()
      ensures deferred <==> old(BlockScalarStop(buffer, pos, ReqIndent()) >= |buffer|) && !atEnd
      ensures deferred ==>
        pos == 0 && next == Some(BlockScalar) && buffer == old(Unconsumed()) && tokens == old(tokens)
      ensures !deferred ==> (buffer == old(buffer)
        && tokens == old(tokens) + [ScalarMarker]
           + Pushed(old(Slice(buffer, pos, BlockScalarStop(buffer, pos, ReqIndent()) + 1))))
    {
      var i := BlockScalarScan(buffer, pos, ReqIndent());
      if At(buffer, i).None? && !atEnd {
        var _ := SetNext(BlockScalar);
        return true;
      }
      PushScalar(i + 1);
      return false;
    }

    /** `parseBlockScalar`. */
    method ParseBlockScalar() returns (r: Option<State>)
      modifies this`buffer, this`pos, this`next, this`tokens, this`indent, this`indentMore
      ensures Lossless() && Stopped(r)
      ensures old(BlockScalarStop(buffer, pos, ReqIndent()) >= |buffer|) && !atEnd ==>
        r == None && next == Some(BlockScalar) && buffer == old(Unconsumed()) && tokens == old(tokens)
      ensures flowLevel == 0 ==> NextFits(r)
    {
      var deferred := PushBlockScalar();
      if deferred {
        return None;
      }
      r := ParseLineStart();
    }

    /** `parsePlainScalar`: push the plain scalar after a `SCALAR` marker, or,
        when the buffer ends before the scalar does and more input is to
        come, stop to wait. */
    method ParsePlainScalar() returns (r: Option<State>)
      modifies this`buffer, this`pos, this`next, this`tokens
      ensures Lossless() && Stopped(r)
      ensures r == None <==> old(PlainScalarStop(buffer, pos, pos, ReqIndent(), flowLevel > 0) >= |buffer|) && !atEnd
      ensures r == None ==> next == Some(PlainScalar) && buffer == old(Unconsumed()) && tokens == old(tokens)
      ensures r != None ==> (r == Some(if flowLevel > 0 then Flow else Doc) && buffer == old(buffer)
        && tokens == old(tokens) + [ScalarMarker]
           + Pushed(old(Slice(buffer, pos, PlainScalarEnd(buffer, pos, ReqIndent(), flowLevel > 0)))))
      ensures flowLevel >= 0 ==> NextFits(r)
    {
      var inFlow := flowLevel > 0;
      var i, ch := PlainScalarScan(buffer, pos, ReqIndent(), inFlow);
      if ch.None? && !atEnd {
        r := SetNext(PlainScalar);
        return;
      }
      PushScalar(i);
      r := if inFlow then Some(Flow) else Some(Doc);
    }
  }

  /** The loop of `parseStream` that finds where the directive on a `%`
      line ends: before the first ` #` comment, without trailing spaces. */
  method DirectiveEnd(line: string) returns (dirEnd: nat)
    ensures dirEnd <= |line| && line[..dirEnd] == DirectivePart(line)
    ensures line != "" && line[0] != ' ' ==> dirEnd > 0
  {
    var e := IndexOfPair(line, ' ', '#', 0) + 1;
    if e == 0 {
      e := |line|;
      assert line[..e] == line;
    }
    dirEnd := TrimSpacesBefore(line, e);
  }

  /** The loop `while (line[dirEnd - 1] === ' ') dirEnd -= 1` of
      `parseStream`: where the text before `e` ends without its trailing
      spaces. */
  method TrimSpacesBefore(line: string, e: nat) returns (d: nat)
    requires e <= |line|
    ensures d <= e && line[..d] == TrimTrailingSpaces(line[..e])
    ensures e > 0 && line[0] != ' ' ==> d > 0
  {
    d := e;
    while At(line, d - 1) == Some(' ')
      invariant 0 <= d <= e
      invariant TrimTrailingSpaces(line[..d]) == TrimTrailingSpaces(line[..e])
      invariant e > 0 && line[0] != ' ' ==> d > 0
      decreases d
    {
      assert line[..d][..d - 1] == line[..d - 1];
      d := d - 1;
    }
  }

  /** The search for the `'` that closes a single-quoted scalar opened at
      `p`: each `'` followed by another `'` is an escaped quote, and the
      search goes on after the pair. */
  method SingleQuoteSearch(b: string, p: nat) returns (end: int)
    requires At(b, p) == Some('\'')
    ensures end == FirstSingleClose(b, p, p + 1)
  {
    end := IndexOf(b, '\'', p + 1);
    if end != -1 {
      assert forall k :: p + 1 <= k < end ==> b[p + 1..end][k - (p + 1)] == b[k];
      SingleQuotedBodyWithoutQuotes(b[p + 1..end]);
    }
    while end != -1 && At(b, end + 1) == Some('\'')
      invariant end == -1 || (p < end < |b| && b[end] == '\'' && SingleQuotedBody(b[p + 1..end]))
      invariant end == -1 ==> forall k :: p < k < |b| ==> !SingleQuoteCloses(b, p, k)
      decreases if end == -1 then 0 else |b| - end
    {
      var e0 := end;
      end := IndexOf(b, '\'', end + 2);
      EscapedQuoteStep(b, p, e0, end);
    }
    if end != -1 {
      NoCloseBefore(b, p, end);
    }
    FirstSingleCloseIs(b, p, p + 1, end);
  }

  /** The search for the `quote` that closes a double-quoted scalar opened at
      `p`: a quote after an odd number of backslashes is escaped, and the
      search goes on for the next `"`. */
  method EscapedQuoteSearch(b: string, p: nat, quote: char) returns (end: int)
    requires At(b, p) == Some(quote)
    ensures end == -1 || p < end < |b|
    ensures quote == '"' ==> end == FirstDoubleClose(b, p, p + 1)
  {
    end := IndexOf(b, quote, p + 1);
    while end != -1
      invariant end == -1 || p < end < |b|
      invariant quote == '"' ==>
        forall k :: p < k < (if end == -1 then |b| else end) ==> !DoubleQuoteCloses(b, p, k)
      invariant quote == '"' && end != -1 ==> b[end] == '"'
      decreases if end == -1 then 0 else |b| - end
    {
      var n := CountBackslashes(b, end);
      if n % 2 == 0 {
        break;
      }
      end := IndexOf(b, '"', end + 1);
    }
    if quote == '"' {
      FirstDoubleCloseIs(b, p, p + 1, end);
    }
  }

  /** The inner loop of that search: the number of backslashes right
      before index `e`. */
  method CountBackslashes(b: string, e: nat) returns (n: nat)
    ensures n == RunBefore(b, e, '\\')
  {
    n := 0;
    while At(b, e - 1 - n) == Some('\\')
      invariant 0 <= n <= e
      invariant forall k :: e - n <= k < e ==> At(b, k) == Some('\\')
      decreases e - n
    {
      n := n + 1;
    }
    RunBeforeAfterOther(b, e - 1 - n, e, '\\');
  }

  /** The scan of `parseBlockScalar` from `p`: at each line feed (when an
      indentation is required) it counts the spaces of the next line, stops
      if that line is short and not blank, and otherwise skips the spaces. */
  method BlockScalarScan(b: string, p: nat, req: nat) returns (i: int)
    ensures i == BlockScalarStop(b, p, req)
  {
    i := p;
    while At(b, i).Some?
      invariant p <= i && (i > p ==> i <= |b|)
      invariant forall k :: p <= k < i ==> !BlockScalarEndsAt(b, k, req)
      decreases |b| - i
    {
      if b[i] == '\n' && req > 0 {
        var indent := 0;
        var next := At(b, i + 1);
        while next == Some(' ')
          invariant next == At(b, i + 1 + indent)
          invariant SpacesFrom(b, i + 1) == indent + SpacesFrom(b, i + 1 + indent)
          decreases |b| - indent
        {
          indent := indent + 1;
          next := At(b, indent + i + 1);
        }
        if indent < req && next != Some('\n') && !(next == Some('\r') && At(b, indent + i + 2) == Some('\n')) {
          break;
        }
        i := i + indent;
      }
      i := i + 1;
    }
    BlockScalarStopIs(b, p, i, req);
  }

  /** The scan of `parsePlainScalar` from `p`. It returns where the pushed
      text ends and the character the scan stopped at (`undefined` when it
      ran off the end of the buffer). */
  method PlainScalarScan(b: string, p: nat, req: nat, inFlow: bool) returns (i: int, ch: Option<char>)
    ensures ch == At(b, PlainScalarStop(b, p, p, req, inFlow))
    ensures i == PlainScalarEnd(b, p, req, inFlow)
  {
    i := p;
    ch := At(b, i);
    while ch.Some?
      invariant p <= i && ch == At(b, i)
      invariant !InSkippedIndent(b, p, req, i)
      invariant PlainScalarStop(b, p, p, req, inFlow) == PlainScalarStop(b, p, i, req, inFlow)
      decreases |b| - i
    {
      var c := ch.value;
      if c == '\n' && req > 0 {
        var indent := PlainLineFeed(b, p, req, inFlow, i);
        if indent < req {
          if At(b, i - 1) == Some('\r') {
            i := i - 1;
          }
          return;
        }
        i := i + indent;
      } else {
        var stop := PlainStopsAt(b, i, req, inFlow);
        if stop {
          break;
        }
        PlainScanStep(b, p, req, inFlow, i);
      }
      i := i + 1;
      ch := At(b, i);
    }
  }

  /** The indentation count of that scan at a line feed `i`: when the next
      line is indented enough, the scan goes on after its spaces. */
  method PlainLineFeed(b: string, p: nat, req: nat, inFlow: bool, i: int) returns (indent: nat)
    requires p <= i && At(b, i) == Some('\n') && req > 0
    ensures indent == SpacesFrom(b, i + 1)
    ensures indent >= req ==>
      PlainScalarStop(b, p, i, req, inFlow) == PlainScalarStop(b, p, i + indent + 1, req, inFlow)
      && !InSkippedIndent(b, p, req, i + indent + 1)
  {
    indent := CountSpaces(b, i + 1);
    if indent >= req {
      SkipIndentation(b, p, req, inFlow, i);
    }
  }

  /** The tests of that scan at a character `i` other than a line feed it
      checks the indentation after: a `:` followed by white space, the end of
      input or (in flow context) a comma; white space followed by `#` or (in
      flow context) a flow indicator; in flow context, a flow indicator. */
  method PlainStopsAt(b: string, i: nat, req: nat, inFlow: bool) returns (stop: bool)
    requires At(b, i).Some? && !(req > 0 && b[i] == '\n')
    ensures stop == PlainScalarEndsAt(b, i, req, inFlow)
  {
    var ch := At(b, i);
    var next := At(b, i + 1);
    if ch == Some(':') {
      stop := IsEmpty(next) || (inFlow && next == Some(','));
    } else if IsEmpty(ch) {
      stop := next == Some('#') || (inFlow && IsInvalidFlowScalarChar(next));
    } else {
      stop := inFlow && IsInvalidFlowScalarChar(ch);
    }
  }

  /** The loop `while (buffer[i + indent + 1] === ' ') indent += 1` of
      `parsePlainScalar`: the length of the run of spaces at `i`. */
  method CountSpaces(b: string, i: int) returns (n: nat)
    ensures n == SpacesFrom(b, i)
  {
    n := 0;
    while At(b, i + n) == Some(' ')
      invariant SpacesFrom(b, i) == n + SpacesFrom(b, i + n)
      decreases |b| - n
    {
      n := n + 1;
    }
  }
}
