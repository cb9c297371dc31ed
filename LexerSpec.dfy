/** The vocabulary of the streaming lexer (src/stream/lexer.ts) as pure
    definitions: its states, what its `push` callback receives, its character
    classes, and the end-of-token rules of YAML 1.2 that its scanning loops
    implement, each stated here independently of the loop that finds it. */
module LexerSpec {
  import opened Wrappers
  import opened JsStrings

  /** The states of the lexer's state machine. */
  datatype State =
    | Stream | LineStart | BlockStart | Doc | Flow | QuotedScalar | BlockScalar | PlainScalar

  /** One call of the `push` callback: a slice of the source text, or one of
      the two marker tokens (`DOCUMENT` and `SCALAR` of token-type.js) that
      carry no source text. */
  datatype Token = Text(text: string) | DocumentMarker | ScalarMarker

  /** The source text carried by a token sequence, in emission order. */
  function TextOf(ts: seq<Token>): string
  {
    if ts == [] then ""
    else
      TextOf(ts[..|ts| - 1]) + match ts[|ts| - 1] { case Text(s) => s case _ => "" }
  }

  lemma {:induction false} TextOfAppend(ts: seq<Token>, us: seq<Token>)
    ensures TextOf(ts + us) == TextOf(ts) + TextOf(us)
    decreases |us|
  {
    if us == [] {
      assert ts + us == ts;
    } else {
      var n := |us| - 1;
      assert (ts + us)[..|ts + us| - 1] == ts + us[..n];
      assert (ts + us)[|ts + us| - 1] == us[n];
      TextOfAppend(ts, us[..n]);
    }
  }

  /** `isEmpty`: end of input, or a space, line feed, carriage return or tab. */
  predicate IsEmpty(ch: Option<char>): (b: bool)
    ensures b <==> ch.None? || ch.value in " \n\r\t"
    ensures b ==> !IsInvalidFlowScalarChar(ch)
  {
    ch.None? || ch.value == ' ' || ch.value == '\n' || ch.value == '\r' || ch.value == '\t'
  }

  const INVALID_FLOW_SCALAR_CHARS: string := ",[]{}"
  const INVALID_IDENTIFIER_CHARS: string := " ,[]{}\n\r\t"

  /** `isNotIdentifierChar`: what ends an anchor, tag or alias name: the
      characters `isEmpty` accepts and the flow indicators, and nothing
      else. */
  predicate IsNotIdentifierChar(ch: Option<char>): (b: bool)
    ensures b <==> IsEmpty(ch) || IsInvalidFlowScalarChar(ch)
  {
    ch.None? || ch.value in INVALID_IDENTIFIER_CHARS
  }

  /** A flow indicator, which cannot appear in a plain scalar inside a flow
      collection (section 7.3.3 of YAML 1.2). */
  predicate IsInvalidFlowScalarChar(ch: Option<char>)
  {
    ch.Some? && ch.value in INVALID_FLOW_SCALAR_CHARS
  }

  /** The indentation a block or plain scalar's continuation lines need:
      one more than the current indentation, or 1 after block indicators only,
      or 0 at the top level of a document. */
  function RequiredIndent(indent: nat, indentMore: string): (r: nat)
    ensures indent > 0 ==> r == indent + 1
    ensures indent == 0 ==> (r == 0 <==> indentMore == "") && r <= 1
  {
    if indent > 0 then indent + 1 else if indentMore != "" then 1 else 0
  }

  /** Which flow depths each state is entered with: none in block context,
      at least one inside a flow collection, and any (non-negative) depth for
      the scalars, which are scanned in both contexts. */
  predicate FlowLevelFits(s: State, flowLevel: int)
  {
    match s
    case Flow => flowLevel >= 1
    case QuotedScalar => flowLevel >= 0
    case PlainScalar => flowLevel >= 0
    case _ => flowLevel == 0
  }

  /** Appending to the buffer appends to its unconsumed part, as long as
      the position has not run past the end. */
  lemma AppendUnconsumed(b: string, s: string, p: nat)
    requires p <= |b|
    ensures (b + s)[Min(p, |b + s|)..] == b[Min(p, |b|)..] + s
  {
    assert (b + s)[p..] == b[p..] + s;
  }

  /** The number of spaces in the run that starts at `i`. */
  function SpacesFrom(s: string, i: int): (n: nat)
    ensures forall k :: i <= k < i + n ==> At(s, k) == Some(' ')
    ensures At(s, i + n) != Some(' ')
    ensures n > 0 ==> 0 <= i && i + n <= |s|
    decreases |s| - i
  {
    if At(s, i) == Some(' ') then 1 + SpacesFrom(s, i + 1) else 0
  }

  /** The number of copies of `c` immediately before index `e`. */
  function RunBefore(s: string, e: int, c: char): (n: nat)
    ensures n <= Max(e, 0)
    ensures forall k :: e - n <= k < e ==> At(s, k) == Some(c)
    ensures At(s, e - n - 1) != Some(c)
    decreases Max(e, 0)
  {
    if e >= 1 && At(s, e - 1) == Some(c) then 1 + RunBefore(s, e - 1, c) else 0
  }

  lemma {:induction false} RunBeforeAfterOther(s: string, j: int, e: int, c: char)
    requires j < e && At(s, j) != Some(c)
    requires forall k :: j < k < e ==> At(s, k) == Some(c)
    ensures RunBefore(s, e, c) == e - j - 1
    decreases e - j
  {
    if e - 1 > j {
      RunBeforeAfterOther(s, j, e - 1, c);
    }
  }

  /** The index of the last character of `s` that is not a space, or -1. */
  function LastNonSpace(s: string): (r: int)
    ensures -1 <= r < |s|
    ensures r >= 0 ==> s[r] != ' '
    ensures forall k :: r < k < |s| ==> s[k] == ' '
  {
    if s == [] then -1
    else if s[|s| - 1] != ' ' then |s| - 1
    else LastNonSpace(s[..|s| - 1])
  }

  /** How far nested block indicators (`- - x`, `? - x`) push the indentation
      of the content that follows them: everything but the trailing spaces of
      the indicator text, once that text is longer than two characters. */
  function IndentGain(indentMore: string): (g: nat)
    ensures g == 0 || (|indentMore| > 2 && g == LastNonSpace(indentMore) && g > 0)
    ensures g < Max(|indentMore|, 1)
  {
    if |indentMore| > 2 && LastNonSpace(indentMore) > 0 then LastNonSpace(indentMore) else 0
  }

  // ---- Quoted scalars (section 7.3 of YAML 1.2) ----

  /** The body of a single-quoted scalar: characters other than `'`, and `''`
      standing for one quote. */
  predicate SingleQuotedBody(t: string)
    decreases |t|
  {
    if |t| == 0 then true
    else if t[|t| - 1] != '\'' then SingleQuotedBody(t[..|t| - 1])
    else |t| >= 2 && t[|t| - 2] == '\'' && SingleQuotedBody(t[..|t| - 2])
  }

  lemma SingleQuotedBodyWithoutQuotes(t: string)
    requires forall k :: 0 <= k < |t| ==> t[k] != '\''
    ensures SingleQuotedBody(t)
  {
    if |t| > 0 {
      assert t[|t| - 1] != '\'';
      SingleQuotedBodyWithoutQuotes(t[..|t| - 1]);
    }
  }

  lemma SingleQuotedBodyExtend(t: string, u: string)
    requires SingleQuotedBody(t)
    requires forall k :: 0 <= k < |u| ==> u[k] != '\''
    ensures SingleQuotedBody(t + u)
    decreases |u|
  {
    if |u| > 0 {
      var v := u[..|u| - 1];
      assert (t + u)[..|t + u| - 1] == t + v;
      assert (t + u)[|t + u| - 1] == u[|u| - 1] != '\'';
      SingleQuotedBodyExtend(t, v);
    } else {
      assert t + u == t;
    }
  }

  lemma SingleQuotedBodyEscape(t: string)
    requires SingleQuotedBody(t)
    ensures SingleQuotedBody(t + "''")
  {
    assert (t + "''")[..|t|] == t;
  }

  /** A lone quote after a complete body is never part of a body: it can only
      close the scalar. */
  lemma {:induction false} SingleQuotedBodyLoneQuote(t: string)
    requires SingleQuotedBody(t)
    ensures !SingleQuotedBody(t + "'")
    decreases |t|
  {
    var u := t + "'";
    if SingleQuotedBody(u) {
      assert |t| >= 1 && t[|t| - 1] == '\'';
      var s := t[..|t| - 1];
      assert u[..|u| - 2] == s;
      assert s + "'" == t;
      SingleQuotedBodyLoneQuote(s);
    }
  }

  /** `e` holds the quote that closes a single-quoted scalar opened at `p`. */
  predicate SingleQuoteCloses(b: string, p: int, e: int)
  {
    0 <= p < e < |b| && b[e] == '\'' && At(b, e + 1) != Some('\'') && SingleQuotedBody(b[p + 1..e])
  }

  /** `e` holds a double quote not escaped by a backslash: it is preceded by an
      even number of backslashes. */
  predicate DoubleQuoteCloses(b: string, p: int, e: int)
  {
    0 <= p < e < |b| && b[e] == '"' && RunBefore(b, e, '\\') % 2 == 0
  }

  /** After a complete body, a quote can continue the body only as the first
      half of an escaped pair. */
  lemma {:induction false} LoneQuoteNeedsPair(x: string, y: string)
    requires SingleQuotedBody(x) && SingleQuotedBody(x + "'" + y)
    ensures |y| > 0 && y[0] == '\''
    decreases |y|
  {
    var z := x + "'" + y;
    if y == [] {
      assert z == x + "'";
      SingleQuotedBodyLoneQuote(x);
    } else if y[0] != '\'' {
      if z[|z| - 1] != '\'' {
        var y' := y[..|y| - 1];
        assert z[..|z| - 1] == x + "'" + y';
        LoneQuoteNeedsPair(x, y');
      } else {
        var y' := y[..|y| - 2];
        assert z[..|z| - 2] == x + "'" + y';
        LoneQuoteNeedsPair(x, y');
      }
    }
  }

  /** At most one quote closes a single-quoted scalar: a later closing quote
      would leave a lone quote inside the body. */
  lemma SingleQuoteClosesUnique(b: string, p: int, e1: int, e2: int)
    requires SingleQuoteCloses(b, p, e1) && SingleQuoteCloses(b, p, e2)
    ensures e1 == e2
  {
    if e1 < e2 {
      assert b[p + 1..e2] == b[p + 1..e1] + "'" + b[e1 + 1..e2];
      LoneQuoteNeedsPair(b[p + 1..e1], b[e1 + 1..e2]);
    } else if e2 < e1 {
      assert b[p + 1..e1] == b[p + 1..e2] + "'" + b[e2 + 1..e1];
      LoneQuoteNeedsPair(b[p + 1..e2], b[e2 + 1..e1]);
    }
  }

  /** The first index at or after `i` holding the quote that closes a
      single-quoted scalar opened at `p`, or -1. */
  function FirstSingleClose(b: string, p: int, i: int): (e: int)
    ensures e == -1 || (i <= e && SingleQuoteCloses(b, p, e))
    ensures forall k :: i <= k < (if e == -1 then |b| else e) ==> !SingleQuoteCloses(b, p, k)
    decreases |b| - i
  {
    if i >= |b| then -1
    else if SingleQuoteCloses(b, p, i) then i
    else FirstSingleClose(b, p, i + 1)
  }

  /** The first index at or after `i` holding an unescaped double quote, or -1. */
  function FirstDoubleClose(b: string, p: int, i: int): (e: int)
    ensures e == -1 || (i <= e && DoubleQuoteCloses(b, p, e))
    ensures forall k :: i <= k < (if e == -1 then |b| else e) ==> !DoubleQuoteCloses(b, p, k)
    decreases |b| - i
  {
    if i >= |b| then -1
    else if DoubleQuoteCloses(b, p, i) then i
    else FirstDoubleClose(b, p, i + 1)
  }

  /** A search that has ruled out every index before `e` and accepts `e`
      finds `e`. */
  lemma {:induction false} FirstSingleCloseIs(b: string, p: int, i: int, e: int)
    requires e == -1 || (i <= e && SingleQuoteCloses(b, p, e))
    requires forall k :: i <= k < (if e == -1 then |b| else e) ==> !SingleQuoteCloses(b, p, k)
    ensures FirstSingleClose(b, p, i) == e
    decreases |b| - i
  {
    if i < |b| && i != e {
      FirstSingleCloseIs(b, p, i + 1, e);
    }
  }

  lemma {:induction false} FirstDoubleCloseIs(b: string, p: int, i: int, e: int)
    requires (e == -1 || (i <= e && DoubleQuoteCloses(b, p, e)))
    requires forall k :: i <= k < (if e == -1 then |b| else e) ==> !DoubleQuoteCloses(b, p, k)
    ensures FirstDoubleClose(b, p, i) == e
    decreases |b| - i
  {
    if i < |b| && i != e {
      FirstDoubleCloseIs(b, p, i + 1, e);
    }
  }

  /** A body made of characters other than lone quotes contains no closing
      quote. */
  lemma NoCloseBefore(b: string, p: int, e: int)
    requires 0 <= p < e <= |b| && SingleQuotedBody(b[p + 1..e])
    ensures forall k :: p < k < e ==> !SingleQuoteCloses(b, p, k)
  {
    forall k | p < k < e && SingleQuoteCloses(b, p, k)
      ensures false
    {
      assert b[p + 1..e] == b[p + 1..k] + "'" + b[k + 1..e];
      LoneQuoteNeedsPair(b[p + 1..k], b[k + 1..e]);
    }
  }

  /** The text from `i` to `j` around a doubled quote at `e`. */
  lemma PairSplit(b: string, i: nat, e: nat, j: nat)
    requires i <= e && e + 2 <= j <= |b| && b[e] == '\'' && b[e + 1] == '\''
    ensures b[i..j] == b[i..e] + "''" + b[e + 2..j]
  {
    assert b[e..e + 2] == "''";
    assert b[i..j] == b[i..e] + b[e..e + 2] + b[e + 2..j];
  }

  /** A doubled quote at `e` followed by quote-free text up to `stop`
      extends the body of a single-quoted scalar opened at `p`. */
  lemma EscapeExtends(b: string, p: int, e: int, stop: int)
    requires 0 <= p < e && e + 2 <= stop <= |b| && b[e] == '\'' && b[e + 1] == '\''
    requires SingleQuotedBody(b[p + 1..e])
    requires forall k :: e + 2 <= k < stop ==> b[k] != '\''
    ensures SingleQuotedBody(b[p + 1..stop])
  {
    var t, u := b[p + 1..e], b[e + 2..stop];
    SingleQuotedBodyEscape(t);
    assert forall k :: 0 <= k < |u| ==> u[k] == b[e + 2 + k];
    SingleQuotedBodyExtend(t + "''", u);
    PairSplit(b, p + 1, e, stop);
  }

  /** The step of the single-quote search past the doubled quote at `e` to
      the next quote `e2` (or -1): the body still holds, and when no quote
      follows there is no closing quote at all. */
  lemma EscapedQuoteStep(b: string, p: int, e: int, e2: int)
    requires 0 <= p < e && e + 1 < |b| && b[e] == '\'' && b[e + 1] == '\''
    requires SingleQuotedBody(b[p + 1..e])
    requires e2 == -1 || (e + 2 <= e2 < |b| && b[e2] == '\'')
    requires forall k :: e + 2 <= k < (if e2 == -1 then |b| else e2) ==> b[k] != '\''
    ensures e2 != -1 ==> SingleQuotedBody(b[p + 1..e2])
    ensures e2 == -1 ==> forall k :: p < k < |b| ==> !SingleQuoteCloses(b, p, k)
  {
    EscapeExtends(b, p, e, if e2 == -1 then |b| else e2);
    if e2 == -1 {
      NoCloseBefore(b, p, |b|);
    }
  }

  /** A quote, or the end of input. */
  predicate IsQuoteOrEnd(ch: Option<char>)
  {
    ch.None? || ch == Some('\'') || ch == Some('"')
  }

  /** The index of the quote closing the quoted scalar that starts at `p`,
      or -1 when the buffer does not hold it. */
  function QuoteEnd(b: string, p: nat): (e: int)
    ensures e == -1 || p < e < |b|
  {
    if At(b, p) == Some('\'') then FirstSingleClose(b, p, p + 1)
    else if At(b, p) == Some('"') then FirstDoubleClose(b, p, p + 1)
    else -1
  }

  // ---- Block scalars (section 8.1 of YAML 1.2) ----

  /** The line after the line feed at `i` is indented by fewer than `req`
      spaces and is not blank (the end of the buffer counts as not blank). */
  predicate ShortLineAfter(b: string, i: int, req: nat)
  {
    var ind := SpacesFrom(b, i + 1);
    var nx := At(b, i + 1 + ind);
    ind < req && nx != Some('\n') && !(nx == Some('\r') && At(b, i + 2 + ind) == Some('\n'))
  }

  /** A block scalar needing `req` spaces of indentation ends with the line
      feed at `i`. At the top level (`req == 0`) it never ends early. */
  predicate BlockScalarEndsAt(b: string, i: int, req: nat)
  {
    req > 0 && At(b, i) == Some('\n') && ShortLineAfter(b, i, req)
  }

  /** The first index at or after `i` where a block scalar ends, or the end
      of the buffer. */
  function BlockScalarStop(b: string, i: int, req: nat): (e: int)
    ensures i <= e
    ensures e < |b| ==> BlockScalarEndsAt(b, e, req)
    ensures e >= |b| ==> e == Max(i, |b|)
    ensures forall k :: i <= k < e ==> !BlockScalarEndsAt(b, k, req)
    decreases |b| - i
  {
    if i >= |b| then i
    else if BlockScalarEndsAt(b, i, req) then i
    else BlockScalarStop(b, i + 1, req)
  }

  lemma {:induction false} BlockScalarStopIs(b: string, i: int, e: int, req: nat)
    requires i <= e
    requires e < |b| ==> BlockScalarEndsAt(b, e, req)
    requires e >= |b| ==> e == Max(i, |b|)
    requires forall k :: i <= k < e ==> !BlockScalarEndsAt(b, k, req)
    ensures BlockScalarStop(b, i, req) == e
    decreases |b| - i
  {
    if i < |b| && i != e {
      BlockScalarStopIs(b, i + 1, e, req);
    }
  }

  // ---- Plain scalars (section 7.3.3 of YAML 1.2) ----

  /** A plain scalar ends at index `i`: at a line feed followed by a line
      indented by fewer than `req` spaces, at a `:` followed by white space or
      the end of input (or by `,` in a flow collection), at white space
      followed by `#`, and in a flow collection at a flow indicator or at white
      space followed by one. */
  predicate PlainScalarEndsAt(b: string, i: int, req: nat, inFlow: bool)
  {
    match At(b, i)
    case None => false
    case Some(ch) =>
      if ch == '\n' && req > 0 then SpacesFrom(b, i + 1) < req
      else if ch == ':' then IsEmpty(At(b, i + 1)) || (inFlow && At(b, i + 1) == Some(','))
      else if IsEmpty(Some(ch)) then
        At(b, i + 1) == Some('#') || (inFlow && IsInvalidFlowScalarChar(At(b, i + 1)))
      else inFlow && IsInvalidFlowScalarChar(Some(ch))
  }

  /** `k` is a space of the indentation of a continuation line, which the
      scan steps over: its run of spaces starts right after a line feed at or
      after `p`. */
  predicate InSkippedIndent(b: string, p: int, req: nat, k: int)
  {
    req > 0 && At(b, k) == Some(' ') && p <= k - RunBefore(b, k, ' ') - 1
    && At(b, k - RunBefore(b, k, ' ') - 1) == Some('\n')
  }

  /** The first index at or after `i` where a plain scalar started at `p`
      ends, stepping over continuation-line indentation, or the end of the
      buffer. */
  function PlainScalarStop(b: string, p: int, i: int, req: nat, inFlow: bool): (e: int)
    ensures i <= e
    ensures e >= |b| ==> e == Max(i, |b|)
    decreases |b| - i
  {
    if i >= |b| then i
    else if PlainScalarEndsAt(b, i, req, inFlow) && !InSkippedIndent(b, p, req, i) then i
    else PlainScalarStop(b, p, i + 1, req, inFlow)
  }

  /** The stop is an end that is not skipped indentation, and everything
      the scan passes before it is either no end or skipped. */
  lemma {:induction false} PlainScalarStopMeets(b: string, p: int, i: int, req: nat, inFlow: bool)
    ensures var e := PlainScalarStop(b, p, i, req, inFlow);
      (e < |b| ==> PlainScalarEndsAt(b, e, req, inFlow) && !InSkippedIndent(b, p, req, e))
      && forall k :: i <= k < e ==> !PlainScalarEndsAt(b, k, req, inFlow) || InSkippedIndent(b, p, req, k)
    decreases |b| - i
  {
    if i < |b| && !(PlainScalarEndsAt(b, i, req, inFlow) && !InSkippedIndent(b, p, req, i)) {
      PlainScalarStopMeets(b, p, i + 1, req, inFlow);
    }
  }

  lemma {:induction false} PlainScalarStopIs(b: string, p: int, i: int, e: int, req: nat, inFlow: bool)
    requires i <= e
    requires e < |b| ==> PlainScalarEndsAt(b, e, req, inFlow) && !InSkippedIndent(b, p, req, e)
    requires e >= |b| ==> e == Max(i, |b|)
    requires forall k :: i <= k < e ==> !PlainScalarEndsAt(b, k, req, inFlow) || InSkippedIndent(b, p, req, k)
    ensures PlainScalarStop(b, p, i, req, inFlow) == e
    decreases |b| - i
  {
    if i < |b| && i != e {
      PlainScalarStopIs(b, p, i + 1, e, req, inFlow);
    }
  }

  /** Where the text of a plain scalar started at `p` stops: at its end, or
      one character earlier when that end is the line feed of a `\r\n`. */
  function PlainScalarEnd(b: string, p: nat, req: nat, inFlow: bool): int
  {
    var e := PlainScalarStop(b, p, p, req, inFlow);
    if req > 0 && At(b, e) == Some('\n') && At(b, e - 1) == Some('\r') then e - 1 else e
  }

  /** Skipped indentation never ends a plain scalar: from a line feed at
      `i` (at or after `p`) followed by at least `req` spaces, the scan goes
      on after the spaces. */
  lemma SkipIndentation(b: string, p: int, req: nat, inFlow: bool, i: int)
    requires p <= i && At(b, i) == Some('\n') && req > 0 && SpacesFrom(b, i + 1) >= req
    ensures PlainScalarStop(b, p, i, req, inFlow) == PlainScalarStop(b, p, i + 1 + SpacesFrom(b, i + 1), req, inFlow)
    ensures !InSkippedIndent(b, p, req, i + 1 + SpacesFrom(b, i + 1))
  {
    SkipRun(b, p, req, inFlow, i, i + 1 + SpacesFrom(b, i + 1));
  }

  /** Every space between a line feed at `i` and `k` is skipped indentation,
      so the scan from just after the line feed stops where the scan from `k`
      does. */
  lemma {:induction false} SkipRun(b: string, p: int, req: nat, inFlow: bool, i: int, k: int)
    requires p <= i < k && At(b, i) == Some('\n') && req > 0
    requires forall j :: i < j < k ==> At(b, j) == Some(' ')
    ensures PlainScalarStop(b, p, i + 1, req, inFlow) == PlainScalarStop(b, p, k, req, inFlow)
    decreases k - i
  {
    if k > i + 1 {
      SkipRun(b, p, req, inFlow, i, k - 1);
      RunBeforeAfterOther(b, i, k - 1, ' ');
      assert InSkippedIndent(b, p, req, k - 1);
    }
  }

  /** A character that neither ends the scalar nor is a line feed the scan
      stops at leaves the stop where it was, and the next one is not skipped
      indentation. */
  lemma PlainScanStep(b: string, p: int, req: nat, inFlow: bool, i: int)
    requires At(b, i).Some? && !(req > 0 && b[i] == '\n')
    requires !PlainScalarEndsAt(b, i, req, inFlow) && !InSkippedIndent(b, p, req, i)
    ensures PlainScalarStop(b, p, i, req, inFlow) == PlainScalarStop(b, p, i + 1, req, inFlow)
    ensures !InSkippedIndent(b, p, req, i + 1)
  {
    NotSkippedNext(b, p, req, i);
  }

  /** The character after one the scan examined (and did not stop at as a
      short line feed) is not skipped indentation either. */
  lemma NotSkippedNext(b: string, p: int, req: nat, i: int)
    requires !InSkippedIndent(b, p, req, i) && At(b, i).Some?
    requires req > 0 ==> At(b, i) != Some('\n')
    ensures !InSkippedIndent(b, p, req, i + 1)
  {
    assert RunBefore(b, i + 1, ' ') == if b[i] == ' ' then 1 + RunBefore(b, i, ' ') else 0;
  }

  // ---- Block indicators (sections 8.2.1 and 8.2.2 of YAML 1.2) ----

  /** A run of `n` spaces. */
  function Spaces(n: nat): (r: string)
    ensures |r| == n && forall k :: 0 <= k < n ==> r[k] == ' '
  {
    if n == 0 then "" else Spaces(n - 1) + " "
  }

  predicate IsBlockIndicator(ch: Option<char>)
  {
    ch == Some('-') || ch == Some('?') || ch == Some(':')
  }

  /** Text made of block indicators `-`, `?` and `:`, each followed by its
      run of spaces. */
  predicate BlockIndicators(t: string)
    decreases |t|
  {
    t == "" || (IsBlockIndicator(At(t, 0)) && BlockIndicators(t[1 + SpacesFrom(t, 1)..]))
  }

  lemma BlockIndicatorsCons(ind: char, k: nat, rest: string)
    requires IsBlockIndicator(Some(ind)) && BlockIndicators(rest)
    ensures BlockIndicators([ind] + Spaces(k) + rest)
  {
    var t := [ind] + Spaces(k) + rest;
    assert forall j :: 1 <= j < 1 + k ==> t[j] == ' ';
    assert rest != "" ==> t[1 + k] == rest[0];
    SpacesFromPrefix(t, 1, k);
    assert t[1 + k..] == rest;
  }

  /** Appending one more indicator and its spaces keeps the shape. */
  lemma {:induction false} BlockIndicatorsSnoc(t: string, ind: char, k: nat)
    requires BlockIndicators(t) && IsBlockIndicator(Some(ind))
    ensures BlockIndicators(t + ([ind] + Spaces(k)))
    decreases |t|
  {
    var g := [ind] + Spaces(k);
    if t == "" {
      assert t + g == [ind] + Spaces(k) + "";
      BlockIndicatorsCons(ind, k, "");
    } else {
      var s := SpacesFrom(t, 1);
      BlockIndicatorsSnoc(t[1 + s..], ind, k);
      SpacesFromAppend(t, g);
      AppendAfter(t, g, 1 + s);
    }
  }

  lemma AppendAfter(t: string, g: string, i: nat)
    requires i <= |t|
    ensures (t + g)[i..] == t[i..] + g
  {
  }

  /** Text that does not start with a space leaves the run of spaces at 1
      as it was. */
  lemma SpacesFromAppend(t: string, g: string)
    requires t != "" && g != "" && g[0] != ' '
    ensures SpacesFrom(t + g, 1) == SpacesFrom(t, 1) && (t + g)[0] == t[0]
  {
    var s := SpacesFrom(t, 1);
    assert forall j :: 1 <= j < 1 + s ==> (t + g)[j] == t[j] && At(t, j) == Some(' ');
    assert 1 + s < |t| ==> (t + g)[1 + s] == t[1 + s];
    assert 1 + s == |t| ==> (t + g)[1 + s] == g[0];
    SpacesFromPrefix(t + g, 1, s);
  }

  /** The space run after `[ind] + Spaces(k)` stops where `rest` begins,
      since `rest` is empty or starts with an indicator. */
  lemma {:induction false} SpacesFromPrefix(t: string, i: nat, k: nat)
    requires i + k <= |t|
    requires forall j :: i <= j < i + k ==> t[j] == ' '
    requires i + k == |t| || t[i + k] != ' '
    ensures SpacesFrom(t, i) == k
    decreases k
  {
    if k > 0 {
      SpacesFromPrefix(t, i + 1, k - 1);
    }
  }

  lemma {:induction false} OnlySpaces(s: string)
    requires forall k :: 0 <= k < |s| ==> s[k] == ' '
    ensures s == Spaces(|s|)
  {
    if s != "" {
      OnlySpaces(s[..|s| - 1]);
      assert s == s[..|s| - 1] + " ";
    }
  }

  lemma OnlySpacesAt(b: string, i: nat, j: nat)
    requires i <= j <= |b|
    requires forall k :: i <= k < j ==> At(b, k) == Some(' ')
    ensures b[i..j] == Spaces(j - i)
  {
    assert forall k :: 0 <= k < j - i ==> b[i..j][k] == b[i + k] && At(b, i + k) == Some(' ');
    OnlySpaces(b[i..j]);
  }

  /** Appending the text an indicator at `start` and its `sp` spaces take
      up keeps `indentMore` made of block indicators. */
  lemma IndicatorStep(im: string, b: string, start: nat, e: nat)
    requires start < e <= |b| && IsBlockIndicator(At(b, start))
    requires forall k :: start + 1 <= k < e ==> At(b, k) == Some(' ')
    requires BlockIndicators(im)
    ensures BlockIndicators(im + b[start..e])
  {
    assert b[start..e] == [b[start]] + b[start + 1..e];
    OnlySpacesAt(b, start + 1, e);
    BlockIndicatorsSnoc(im, b[start], e - start - 1);
  }

  /** `b` is `a` followed by nothing but spaces. */
  predicate GrownBySpaces(a: string, b: string)
  {
    |a| <= |b| && b == a + Spaces(|b| - |a|)
  }

  /** Two spaces, then only spaces: only spaces. */
  lemma {:induction false} GrownBySpacesAfterTwo(a: string, b: string)
    requires GrownBySpaces(a + "  ", b)
    ensures GrownBySpaces(a, b)
  {
    var d := |b| - |a| - 2;
    OnlySpaces("  " + Spaces(d));
    assert b == a + ("  " + Spaces(d));
  }

  /** Three characters read with `substr` are the marker `c c c` exactly
      when the buffer holds `c` at each of the three positions. */
  lemma ThreeOf(b: string, p: nat, c: char)
    ensures Substr(b, p, 3) == [c, c, c] <==>
      At(b, p) == Some(c) && At(b, p + 1) == Some(c) && At(b, p + 2) == Some(c)
  {
    var t := Substr(b, p, 3);
    if p + 3 <= |b| {
      assert t == b[p..p + 3];
      assert t[0] == b[p] && t[1] == b[p + 1] && t[2] == b[p + 2];
    } else {
      assert |t| < 3;
    }
  }

  /** A node property (`!tag`, `&anchor` or `*alias`) starts with `ch`. */
  predicate IsPropertyStart(ch: Option<char>)
  {
    ch == Some('!') || ch == Some('&') || ch == Some('*')
  }

  /** A block indicator followed by white space or the end of input. */
  predicate StartsBlockIndicatorAt(b: string, i: int)
  {
    IsBlockIndicator(At(b, i)) && IsEmpty(At(b, i + 1))
  }

  /** `{` or `[`, which open a flow collection. */
  predicate IsFlowStart(ch: Option<char>)
  {
    ch == Some('{') || ch == Some('[')
  }

  /** `}` or `]`, which close a flow collection. */
  predicate IsFlowEnd(ch: Option<char>)
  {
    ch == Some('}') || ch == Some(']')
  }

  /** What the `,` that may start a line in a flow collection takes up,
      with the spaces after it: nothing if the line read at `p` does not
      start with one. */
  function CommaLength(b: string, p: nat, line: string): nat
  {
    if At(line, 0) == Some(',') then 1 + SpacesFrom(b, p + 1) else 0
  }

  /** The first index at or after `i` whose character ends an anchor, tag
      or alias name (the end of the buffer always does). */
  function IdentifierEnd(b: string, i: nat): (e: nat)
    ensures i <= e && IsNotIdentifierChar(At(b, e))
    ensures e > i ==> e <= |b|
    decreases |b| - i
  {
    if IsNotIdentifierChar(At(b, i)) then i else IdentifierEnd(b, i + 1)
  }

  lemma {:induction false} IdentifierEndIs(b: string, i: nat, e: nat)
    requires i <= e && IsNotIdentifierChar(At(b, e))
    requires forall k :: i <= k < e ==> !IsNotIdentifierChar(At(b, k))
    ensures IdentifierEnd(b, i) == e
    decreases e - i
  {
    if i < e {
      IdentifierEndIs(b, i + 1, e);
    }
  }

  /** A node property or a `:`, `?` or `-` followed by white space starts
      at `i`. */
  predicate StartsIndicatorAt(b: string, i: int)
  {
    IsPropertyStart(At(b, i)) || StartsBlockIndicatorAt(b, i)
  }

  /** Where one step of `pushIndicators` from `i` stops: after the name of
      a node property, or after a `:`, `?` or `-`, and then after the spaces
      that follow. */
  function AfterIndicator(b: string, i: nat): (j: nat)
    requires StartsIndicatorAt(b, i)
    ensures i < j <= |b|
  {
    if IsPropertyStart(At(b, i)) then IdentifierEnd(b, i) + SpacesFrom(b, IdentifierEnd(b, i))
    else i + 1 + SpacesFrom(b, i + 1)
  }

  /** Where `pushIndicators` from `i` stops: at the first position that
      starts neither a node property nor a block indicator. */
  function IndicatorsEnd(b: string, i: nat): (j: nat)
    ensures i <= j && !StartsIndicatorAt(b, j)
    decreases |b| - i
  {
    if StartsIndicatorAt(b, i) then IndicatorsEnd(b, AfterIndicator(b, i)) else i
  }

  lemma TextOfPushText(ts: seq<Token>, s: string)
    ensures TextOf(ts + [Text(s)]) == TextOf(ts) + s
  {
    assert (ts + [Text(s)])[..|ts|] == ts;
  }

  /** Pushing `b[p..q]` as a token and dropping it from the unread text
      keeps the text as a whole. */
  lemma PushSlice(ts: seq<Token>, b: string, p: nat, q: nat)
    requires p <= q <= |b|
    ensures TextOf(ts + [Text(b[p..q])]) + b[q..] == TextOf(ts) + b[p..]
  {
    TextOfPushText(ts, b[p..q]);
    assert b[p..q] + b[q..] == b[p..];
  }

  lemma TextOfPushMarker(ts: seq<Token>, m: Token)
    requires !m.Text?
    ensures TextOf(ts + [m]) == TextOf(ts)
  {
    assert (ts + [m])[..|ts|] == ts;
  }

  /** What `pushToIndex` hands to `push`: the text, unless it is empty. */
  function Pushed(s: string): (ts: seq<Token>)
    ensures TextOf(ts) == s
  {
    if s == "" then [] else [Text(s)]
  }

  /** The last token pushed is the one-character text `a` or `b`. */
  predicate LastPushed(ts: seq<Token>, a: char, b: char)
  {
    |ts| > 0 && (ts[|ts| - 1] == Text([a]) || ts[|ts| - 1] == Text([b]))
  }

  // ---- Lines ----

  /** A line break, or the end of the buffer, starts at `i`. */
  predicate LineBreakOrEnd(b: string, i: int)
  {
    At(b, i).None? || At(b, i) == Some('\n') || (At(b, i) == Some('\r') && At(b, i + 1) == Some('\n'))
  }

  /** `line` is the text of `b` from `p` up to the next line break (`\n` or
      `\r\n`) or up to the end of `b`. */
  predicate IsLineAt(b: string, p: nat, line: string)
  {
    p + |line| <= |b| && b[p..p + |line|] == line && LineBreakOrEnd(b, p + |line|)
    && forall k :: 0 <= k < |line| ==> line[k] != '\n'
  }

  /** The text the comment and end-of-line branches of `parseDocument` and
      `parseFlowCollection` push as written there: `line.length` characters
      from where the indicators ended, `n` characters into the line read at
      `p`. */
  function LineEndTextAsWritten(b: string, p: nat, line: string, n: nat): (t: string)
    ensures |line| > 0 ==> t == Substr(b, p + n, |line|)
    ensures |line| == 0 ==> t == ""
  {
    Substr(b, p + n, |line|)
  }

  /** The text those branches evidently mean to push: the rest of the line
      from where the indicators ended, as the block scalar branch of
      `parseDocument` does with `line.length - n`. */
  function LineEndText(b: string, p: nat, line: string, n: nat): (t: string)
    ensures |t| <= |line| - n || |line| <= n
    ensures |line| <= n ==> t == ""
  {
    Substr(b, p + n, |line| - n)
  }

  /** The corrected text is exactly the rest of the line. */
  lemma LineEndTextIsRest(b: string, p: nat, line: string, n: nat)
    requires IsLineAt(b, p, line) && n <= |line|
    ensures LineEndText(b, p, line, n) == line[n..]
  {
    assert b[p + n..p + |line|] == b[p..p + |line|][n..];
  }

  /** As written, the text runs `n` characters past the end of the line,
      over its line break and into the next line. */
  lemma LineEndTextRunsOver(b: string, p: nat, line: string, n: nat)
    requires IsLineAt(b, p, line) && 0 < n <= |line| && p + |line| + n <= |b|
    ensures LineEndTextAsWritten(b, p, line, n) == line[n..] + b[p + |line|..p + |line| + n]
    ensures BreakLength(b, p + |line|) > 0 ==> LineEndTextAsWritten(b, p, line, n) != line[n..]
  {
    assert b[p + n..p + |line| + n] == b[p..p + |line|][n..] + b[p + |line|..p + |line| + n];
  }

  /** `&a #c` followed by a line `b`: the anchor and the space after it are
      the indicators, and the comment pushed as written takes the line feed
      and the `b` with it. */
  lemma AnchoredCommentRunsOver()
    ensures LineAt("&a #c\nb", 0, false) == Some("&a #c") && IsLineAt("&a #c\nb", 0, "&a #c")
    ensures IndicatorsEnd("&a #c\nb", 0) == 3
    ensures LineEndTextAsWritten("&a #c\nb", 0, "&a #c", 3) == "#c\nb"
    ensures LineEndText("&a #c\nb", 0, "&a #c", 3) == "#c"
  {
    var b := "&a #c\nb";
    AnchoredLine(b);
    AnchoredIndicators(b);
    AnchoredTexts(b);
  }

  lemma AnchoredTexts(b: string)
    requires b == "&a #c\nb"
    ensures LineEndTextAsWritten(b, 0, "&a #c", 3) == "#c\nb"
    ensures LineEndText(b, 0, "&a #c", 3) == "#c"
  {
    assert b[3..7] == "#c\nb";
    assert b[3..5] == "#c";
  }

  lemma AnchoredLine(b: string)
    requires b == "&a #c\nb"
    ensures LineAt(b, 0, false) == Some("&a #c") && IsLineAt(b, 0, "&a #c")
  {
    assert b[5] == '\n' && b[4] == 'c';
    assert forall k :: 0 <= k < 5 ==> b[k] != '\n';
    var e := IndexOf(b, '\n', 0);
    assert e == 5;
    assert b[0..5] == "&a #c";
    assert LineBefore(b, 0, 5) == "&a #c";
  }

  lemma AnchoredIndicators(b: string)
    requires b == "&a #c\nb"
    ensures IndicatorsEnd(b, 0) == 3
  {
    assert At(b, 2) == Some(' ') && IsEmpty(At(b, 2));
    assert IdentifierEnd(b, 2) == 2;
    assert !IsNotIdentifierChar(At(b, 1)) && !IsNotIdentifierChar(At(b, 0));
    assert IdentifierEnd(b, 0) == 2;
    assert SpacesFrom(b, 3) == 0;
    assert SpacesFrom(b, 2) == 1;
    assert AfterIndicator(b, 0) == 3;
    assert At(b, 3) == Some('#');
    assert !StartsIndicatorAt(b, 3);
  }

  /** The length of the line break at `i`: 1 for `\n`, 2 for `\r\n`, 0
      otherwise. */
  function BreakLength(b: string, i: int): nat
  {
    if At(b, i) == Some('\n') then 1
    else if At(b, i) == Some('\r') && At(b, i + 1) == Some('\n') then 2
    else 0
  }

  /** The line break at `i`: `\n`, `\r\n`, or nothing. */
  function BreakText(b: string, i: int): (t: string)
    ensures |t| == BreakLength(b, i)
  {
    if At(b, i) == Some('\n') then "\n"
    else if At(b, i) == Some('\r') && At(b, i + 1) == Some('\n') then "\r\n"
    else ""
  }

  /** The token `pushNewline` pushes at `i`, if any. */
  function BreakPushed(b: string, i: int): seq<Token>
  {
    if BreakLength(b, i) > 0 then [Text(BreakText(b, i))] else []
  }

  /** `p` is the line feed of a `\r\n` whose `\r` was already read. */
  predicate SplitBreak(b: string, p: int)
  {
    At(b, p) == Some('\n') && At(b, p - 1) == Some('\r')
  }

  /** `getLine` at `p`: the rest of the line without its line break, or
      `null` when the line may go on in input not yet seen. */
  function LineAt(b: string, p: nat, atEnd: bool): (line: Option<string>)
    ensures line.None? <==> !atEnd && forall k :: p <= k < |b| ==> b[k] != '\n'
    ensures line.Some? ==> forall k :: 0 <= k < |line.value| ==> line.value[k] != '\n'
    ensures line.Some? && p <= |b| && !SplitBreak(b, p) ==> IsLineAt(b, p, line.value)
  {
    var end := IndexOf(b, '\n', p);
    if end == -1 then
      (if atEnd then Some(LastLine(b, p)) else None)
    else
      Some(LineBefore(b, p, end))
  }

  /** The last line of a final buffer, which has no line feed after `p`. */
  function LastLine(b: string, p: nat): (line: string)
    requires forall k :: p <= k < |b| ==> b[k] != '\n'
    ensures forall k :: 0 <= k < |line| ==> line[k] != '\n'
    ensures p <= |b| ==> IsLineAt(b, p, line)
  {
    if p <= |b| then Substring(b, p, |b|) else ""
  }

  /** The line at `p` that ends with the line feed at `end`, without the
      `\r` of a `\r\n`. */
  function LineBefore(b: string, p: nat, end: nat): (line: string)
    requires p <= end < |b| && b[end] == '\n'
    requires forall k :: p <= k < end ==> b[k] != '\n'
    ensures forall k :: 0 <= k < |line| ==> line[k] != '\n'
    ensures !SplitBreak(b, p) ==> IsLineAt(b, p, line)
  {
    var e := if At(b, end - 1) == Some('\r') then end - 1 else end;
    Substring(b, p, e)
  }

  /** A character of the line other than `\r` is the buffer's character at
      the same offset from `p`. (The line is read with `substring`, which
      swaps reversed bounds, so at a split `\r\n` the line is that `\r`.) */
  lemma LineCharIsChar(b: string, p: nat, atEnd: bool, n: nat, c: char)
    requires LineAt(b, p, atEnd).Some? && At(LineAt(b, p, atEnd).value, n) == Some(c) && c != '\r'
    ensures At(b, p + n) == Some(c)
  {
    var end := IndexOf(b, '\n', p);
    if end != -1 {
      var e := if At(b, end - 1) == Some('\r') then end - 1 else end;
    }
  }

  /** A line read by `getLine` that starts with `%` is the whole line at
      `p`: it cannot be the empty rest of a `\r\n` split by the read. */
  lemma DirectiveLineAt(b: string, p: nat, atEnd: bool, line: string)
    requires LineAt(b, p, atEnd) == Some(line)
    ensures At(line, 0) == Some('%') ==> IsLineAt(b, p, line)
  {
    if At(line, 0) == Some('%') {
      LineCharIsChar(b, p, atEnd, 0, '%');
    }
  }

  /** The first `d` characters of the line at `p` are the buffer's. */
  lemma SubstrOfLine(b: string, p: nat, line: string, d: nat)
    requires IsLineAt(b, p, line) && d <= |line|
    ensures Substr(b, p, d) == line[..d]
  {
    assert b[p..p + |line|][..d] == b[p..p + d];
  }

  /** A run of spaces inside a line stops at its end: the line break is no
      space. */
  lemma SpacesWithinLine(b: string, p: nat, line: string, d: nat)
    requires IsLineAt(b, p, line) && d <= |line|
    ensures d + SpacesFrom(b, p + d) <= |line|
  {
    var n := SpacesFrom(b, p + d);
    assert d + n > |line| ==> At(b, p + |line|) == Some(' ');
  }

  /** From `p`, the rest of the line is spaces only, optionally followed by
      a comment (`atLineEnd`). */
  predicate BlankOrCommentFrom(b: string, p: nat)
  {
    var i := p + SpacesFrom(b, p);
    LineBreakOrEnd(b, i) || At(b, i) == Some('#')
  }

  /** `s` without its trailing spaces. */
  function TrimTrailingSpaces(s: string): (r: string)
    ensures r <= s
    ensures r == "" || r[|r| - 1] != ' '
    ensures forall k :: |r| <= k < |s| ==> s[k] == ' '
  {
    if s != "" && s[|s| - 1] == ' ' then TrimTrailingSpaces(s[..|s| - 1]) else s
  }

  /** The directive part of a `%` line: everything before the first ` #`
      comment, without trailing spaces. */
  function DirectivePart(line: string): string
  {
    var c := IndexOfPair(line, ' ', '#', 0);
    TrimTrailingSpaces(if c == -1 then line else line[..c + 1])
  }
}
