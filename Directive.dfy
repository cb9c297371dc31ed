/** The directive line of the concrete syntax tree (src/cst/Directive.js):
    `%NAME parameters # comment`, as in section 6.8 of YAML 1.2. The
    scanners move an offset through the source; `parameters` splits the raw
    value. `Node.parseComment` and `Node.rawValue` are given as
    parameters. */
module Directives {
  import opened Wrappers
  import opened JsStrings

  datatype Range = Range(start: nat, end: nat)

  /** A character `String.prototype.trim` removes: white space and line
      terminators. */
  predicate IsJsSpace(c: char)
  {
    ('\U{9}' <= c <= '\U{D}') || c == ' ' || c == '\U{A0}' || c == '\U{1680}'
    || ('\U{2000}' <= c <= '\U{200A}') || c == '\U{2028}' || c == '\U{2029}' || c == '\U{202F}'
    || c == '\U{205F}' || c == '\U{3000}' || c == '\U{FEFF}'
  }

  /** A character of the separator class `[ \t]`. */
  predicate IsSep(c: char)
  {
    c == ' ' || c == '\t'
  }

  /** `s.trim()`: what is left once the white space at both ends is
      removed. */
  function Trim(s: string): (r: string)
    ensures r != "" ==> !IsJsSpace(r[0]) && !IsJsSpace(r[|r| - 1])
    ensures var i := |s| - |TrimStart(s)|;
      i + |r| <= |s| && r == s[i..i + |r|]
      && (forall k :: 0 <= k < i ==> IsJsSpace(s[k]))
      && (forall k :: i + |r| <= k < |s| ==> IsJsSpace(s[k]))
  {
    var t := TrimStart(s);
    var r := TrimEnd(t);
    TrimmedMiddle(s, t, r);
    r
  }

  /** A prefix of a suffix of `s` is a slice of `s`, and what follows it
      in the suffix follows it in `s`. */
  lemma TrimmedMiddle(s: string, t: string, r: string)
    requires |t| <= |s| && t == s[|s| - |t|..]
    requires |r| <= |t| && r == t[..|r|]
    requires forall k :: |r| <= k < |t| ==> IsJsSpace(t[k])
    ensures var i := |s| - |t|; r == s[i..i + |r|] && forall k :: i + |r| <= k < |s| ==> IsJsSpace(s[k])
  {
    var i := |s| - |t|;
    forall k | i + |r| <= k < |s|
      ensures IsJsSpace(s[k])
    {
      assert s[k] == t[k - i];
    }
  }

  /** `s.trimStart()`: `s` without its leading white space. */
  function TrimStart(s: string): (r: string)
    ensures r != "" ==> !IsJsSpace(r[0])
    ensures |r| <= |s| && r == s[|s| - |r|..]
    ensures forall k :: 0 <= k < |s| - |r| ==> IsJsSpace(s[k])
  {
    if s != "" && IsJsSpace(s[0]) then TrimStart(s[1..]) else s
  }

  /** `s.trimEnd()`: `s` without its trailing white space. */
  function TrimEnd(s: string): (r: string)
    ensures r != "" ==> !IsJsSpace(r[|r| - 1])
    ensures |r| <= |s| && r == s[..|r|]
    ensures forall k :: |r| <= k < |s| ==> IsJsSpace(s[k])
  {
    if s != "" && IsJsSpace(s[|s| - 1]) then TrimEnd(s[..|s| - 1]) else s
  }

  /** The length of the separator-free prefix of `s`. */
  function WordLength(s: string): (n: nat)
    ensures n <= |s|
    ensures forall k :: 0 <= k < n ==> !IsSep(s[k])
    ensures n < |s| ==> IsSep(s[n])
  {
    if s == "" || IsSep(s[0]) then 0 else 1 + WordLength(s[1..])
  }

  /** The length of the run of separators at the start of `s`. */
  function SepLength(s: string): (n: nat)
    ensures n <= |s|
    ensures forall k :: 0 <= k < n ==> IsSep(s[k])
    ensures n < |s| ==> !IsSep(s[n])
  {
    if s != "" && IsSep(s[0]) then 1 + SepLength(s[1..]) else 0
  }

  /** `s.split(/[ \t]+/)`: the pieces between maximal runs of spaces and
      tabs. An empty string gives one empty piece. */
  function Split(s: string): (r: seq<string>)
    ensures |r| >= 1
    ensures forall i, k :: 0 <= i < |r| && 0 <= k < |r[i]| ==> !IsSep(r[i][k])
    decreases |s|
  {
    var w := WordLength(s);
    if w == |s| then [s]
    else [s[..w]] + Split(s[w + SepLength(s[w..])..])
  }

  /** The `parameters` getter, for the node's raw value `raw`. */
  function Parameters(raw: Option<string>): (r: seq<string>)
    ensures raw.None? || raw == Some("") ==> r == []
    ensures forall i, k :: 0 <= i < |r| && 0 <= k < |r[i]| ==> r[i][k] != ' ' && r[i][k] != '\t'
    ensures raw.Some? && raw.value != "" && Trim(raw.value) == "" ==> r == [""]
  {
    if raw.None? || raw.value == "" then [] else Split(Trim(raw.value))
  }

  /** The pieces written one after the other. */
  function Concat(ps: seq<string>): string
  {
    if ps == [] then "" else ps[0] + Concat(ps[1..])
  }

  /** `s` without its spaces and tabs. */
  function WithoutSeps(s: string): string
  {
    if s == "" then "" else (if IsSep(s[0]) then "" else [s[0]]) + WithoutSeps(s[1..])
  }

  lemma {:induction false} WithoutSepsAppend(a: string, b: string)
    ensures WithoutSeps(a + b) == WithoutSeps(a) + WithoutSeps(b)
  {
    if a == "" {
      assert a + b == b;
    } else {
      assert (a + b)[0] == a[0] && (a + b)[1..] == a[1..] + b;
      WithoutSepsAppend(a[1..], b);
    }
  }

  lemma WithoutSepsAppend3(a: string, b: string, c: string)
    ensures WithoutSeps(a + b + c) == WithoutSeps(a) + WithoutSeps(b) + WithoutSeps(c)
  {
    WithoutSepsAppend(a + b, c);
    WithoutSepsAppend(a, b);
  }

  /** `s` holds no separator. */
  predicate IsWord(s: string)
  {
    forall k :: 0 <= k < |s| ==> !IsSep(s[k])
  }

  /** `s` holds only separators. */
  predicate IsRun(s: string)
  {
    forall k :: 0 <= k < |s| ==> IsSep(s[k])
  }

  lemma {:induction false} WithoutSepsOfWord(s: string)
    requires IsWord(s)
    ensures WithoutSeps(s) == s
  {
    if s != "" {
      assert IsWord(s[1..]);
      WithoutSepsOfWord(s[1..]);
    }
  }

  lemma {:induction false} WithoutSepsOfRun(s: string)
    requires IsRun(s)
    ensures WithoutSeps(s) == ""
  {
    if s != "" {
      assert IsRun(s[1..]);
      WithoutSepsOfRun(s[1..]);
    }
  }

  /** Removing the separators from a word, a run and the rest. */
  lemma WithoutSepsOfPieces(a: string, b: string, c: string)
    requires IsWord(a) && IsRun(b)
    ensures WithoutSeps(a + b + c) == a + WithoutSeps(c)
  {
    WithoutSepsAppend3(a, b, c);
    WithoutSepsOfWord(a);
    WithoutSepsOfRun(b);
  }

  /** Splitting loses only the separators: the pieces written together
      are the string without its spaces and tabs. */
  lemma {:induction false} SplitKeepsText(s: string)
    ensures Concat(Split(s)) == WithoutSeps(s)
    decreases |s|
  {
    var w := WordLength(s);
    if w == |s| {
      assert IsWord(s);
      WithoutSepsOfWord(s);
      assert Concat([s]) == s + Concat([]);
    } else {
      var rest := SplitUnfold(s);
      SplitKeepsText(rest);
      ConcatCons(s[..w], Split(rest));
      var a, b := SplitPieces(s);
      WithoutSepsOfPieces(a, b, rest);
    }
  }

  /** One step of `Split`: the first piece, then the pieces of what
      follows the first run of separators. */
  lemma SplitUnfold(s: string) returns (rest: string)
    requires WordLength(s) < |s|
    ensures rest == s[WordLength(s) + SepLength(s[WordLength(s)..])..]
    ensures Split(s) == [s[..WordLength(s)]] + Split(rest)
  {
    rest := s[WordLength(s) + SepLength(s[WordLength(s)..])..];
  }

  /** `s` is its first word, the run of separators after it and the rest. */
  lemma SplitPieces(s: string) returns (a: string, b: string)
    requires WordLength(s) < |s|
    ensures a == s[..WordLength(s)] && IsWord(a) && IsRun(b)
    ensures s == a + b + s[WordLength(s) + SepLength(s[WordLength(s)..])..]
  {
    var w := WordLength(s);
    var e := w + SepLength(s[w..]);
    a, b := s[..w], s[w..e];
    assert forall k :: 0 <= k < |b| ==> b[k] == s[w..][k] && IsSep(b[k]);
    assert s == s[..w] + s[w..e] + s[e..];
  }

  lemma ConcatCons(p: string, ps: seq<string>)
    ensures Concat([p] + ps) == p + Concat(ps)
  {
    assert ([p] + ps)[0] == p && ([p] + ps)[1..] == ps;
  }

  /** A string that neither starts nor ends with a separator splits into
      pieces that are all non-empty. */
  lemma {:induction false} SplitPiecesNonEmpty(s: string)
    requires s != "" && !IsSep(s[0]) && !IsSep(s[|s| - 1])
    ensures forall i :: 0 <= i < |Split(s)| ==> Split(s)[i] != ""
    decreases |s|
  {
    var w := WordLength(s);
    if w < |s| {
      var n := SepLength(s[w..]);
      var rest := s[w + n..];
      assert w + n < |s|;
      assert rest[|rest| - 1] == s[|s| - 1];
      SplitPiecesNonEmpty(rest);
      assert Split(s) == [s[..w]] + Split(rest);
    }
  }

  /** When the trimmed raw value is not empty, every parameter is a
      non-empty word. */
  lemma ParametersNonEmpty(raw: string)
    requires Trim(raw) != ""
    ensures forall i :: 0 <= i < |Parameters(Some(raw))| ==> Parameters(Some(raw))[i] != ""
  {
    var t := Trim(raw);
    assert !IsSep(t[0]) && !IsSep(t[|t| - 1]);
    SplitPiecesNonEmpty(t);
  }

  /** The parameters, written one after the other, are the trimmed raw
      value without its spaces and tabs. */
  lemma ParametersKeepText(raw: string)
    requires raw != ""
    ensures Concat(Parameters(Some(raw))) == WithoutSeps(Trim(raw))
  {
    SplitKeepsText(Trim(raw));
  }

  /** A character that continues a directive name: the loop in
      `parseName` stops at the end of the source, a line break, a tab or a
      space. */
  predicate InName(ch: Option<char>)
  {
    ch.Some? && !(ch.value == '\n' || ch.value == '\t' || ch.value == ' ')
  }

  /** A character that continues the parameters: the loop in
      `parseParameters` stops at the end of the source, a line break or
      `#`. */
  predicate InParameters(ch: Option<char>)
  {
    ch.Some? && ch.value != '\n' && ch.value != '#'
  }

  /** The `%` line of a document prefix. */
  class Directive {
    /** `this.context.src`. */
    var src: string
    var name: Option<string>
    var valueRange: Option<Range>
    var range: Option<Range>

    constructor ()
      ensures src == "" && name.None? && valueRange.None? && range.None?
    {
      src := "";
      name := None;
      valueRange := None;
      range := None;
    }

    /** `parseName`: the name runs from `start` to the first line break,
        tab or space, or to the end of the source. */
    method ParseName(start: nat) returns (offset: nat)
      modifies this`name
      ensures start <= offset && (start <= |src| ==> offset <= |src|)
      ensures forall k :: start <= k < offset ==> InName(At(src, k))
      ensures !InName(At(src, offset))
      ensures name == Some(Slice(src, start, offset))
      ensures forall k :: 0 <= k < |name.value| ==> !(name.value[k] == '\n' || name.value[k] == '\t' || name.value[k] == ' ')
    {
      var s := src;
      offset := start;
      var ch := At(s, offset);
      while InName(ch)
        invariant start <= offset && ch == At(s, offset)
        invariant start <= |s| ==> offset <= |s|
        invariant forall k :: start <= k < offset ==> InName(At(s, k))
        decreases |s| - offset
      {
        offset := offset + 1;
        ch := At(s, offset);
      }
      name := Some(Slice(s, start, offset));
      forall k | 0 <= k < |name.value|
        ensures !(name.value[k] == '\n' || name.value[k] == '\t' || name.value[k] == ' ')
      {
        assert name.value[k] == s[start + k] && InName(At(s, start + k));
      }
    }

    /** `parseParameters`: the value runs from `start` to the first line
        break or `#`, or to the end of the source. */
    method ParseParameters(start: nat) returns (offset: nat)
      modifies this`valueRange
      ensures start <= offset && (start <= |src| ==> offset <= |src|)
      ensures forall k :: start <= k < offset ==> InParameters(At(src, k))
      ensures !InParameters(At(src, offset))
      ensures valueRange == Some(Range(start, offset))
    {
      var s := src;
      offset := start;
      var ch := At(s, offset);
      while InParameters(ch)
        invariant start <= offset && ch == At(s, offset)
        invariant start <= |s| ==> offset <= |s|
        invariant forall k :: start <= k < offset ==> InParameters(At(s, k))
        decreases |s| - offset
      {
        offset := offset + 1;
        ch := At(s, offset);
      }
      valueRange := Some(Range(start, offset));
    }

    /** `parse(context, start)`: the name after the `%` at `start`, the
        parameters right after it, then the comment, which `parseComment`
        reads from the offset it is given to the offset it returns. */
    method Parse(source: string, start: nat, parseComment: (string, nat) -> nat) returns (offset: nat)
      modifies this`src, this`name, this`valueRange, this`range
      ensures src == source && name.Some? && valueRange.Some?
      ensures var v := valueRange.value;
        start + 1 <= v.start <= v.end && name.value == Slice(source, start + 1, v.start)
      ensures var v := valueRange.value;
        (forall k :: start + 1 <= k < v.start ==> InName(At(source, k))) && !InName(At(source, v.start))
      ensures var v := valueRange.value;
        (forall k :: v.start <= k < v.end ==> InParameters(At(source, k))) && !InParameters(At(source, v.end))
      ensures offset == parseComment(source, valueRange.value.end)
      ensures range == Some(Range(start, offset))
    {
      src := source;
      var nameEnd := ParseName(start + 1);
      var paramsEnd := ParseParameters(nameEnd);
      offset := parseComment(src, paramsEnd);
      range := Some(Range(start, offset));
    }
  }
}
