/** `composeScalar` of src/compose/compose-scalar.ts: choosing the tag of a
    scalar from the schema and building the `Scalar` node. Regular
    expression tests, `tag.resolve` and the block and flow scalar resolvers
    are parameters of the model. */
module ScalarComposing {
  import opened Wrappers

  /** The tag that `!` stands for (src/constants.d.ts:25). */
  const StrTag := "tag:yaml.org,2002:str"

  /** A schema tag: its name, whether it is used by default, its format,
      the regular expression of its `test` (by number), and which `resolve`
      function it has. */
  datatype Tag = Tag(tag: string, default: bool, format: Option<string>, test: Option<nat>, resolver: nat)

  datatype Range = Range(start: int, end: int)

  /** The value of a scalar: the source string, or whatever a `resolve`
      function made of it. */
  datatype Value = Str(s: string) | Resolved(id: nat)

  /** A `Scalar` node; `new Scalar(v)` sets only the value. */
  datatype Scalar = Scalar(value: Value, range: Option<Range>, scalarType: Option<string>, tag: Option<string>,
                           format: Option<string>, comment: Option<string>)

  /** What `tag.resolve(value, onError)` did: the messages it reported,
      then either its result (a node or any other value) or the message it
      threw. */
  datatype Resolution =
    | ReturnedScalar(messages: seq<string>, scalar: Scalar)
    | ReturnedValue(messages: seq<string>, value: Value)
    | Threw(messages: seq<string>, error: string)

  /** One call of `onError(offset, message, warning)`. */
  datatype Error = Error(offset: int, message: string, warning: bool)

  /** `token.type`: a block scalar, a plain flow scalar (`scalar`) or a
      quoted one. */
  datatype ScalarKind = BlockScalarKind | PlainKind | QuotedKind

  /** What `resolveBlockScalar` or `resolveFlowScalar` made of the token,
      with the errors it reported to `onError` while doing so. */
  datatype Resolved = ResolvedToken(value: string, scalarType: Option<string>, comment: string, length: nat,
                                    errors: seq<Error>)

  class Schema {
    var tags: seq<Tag>
    const knownTags: map<string, Tag>

    constructor (tags: seq<Tag>, knownTags: map<string, Tag>)
      ensures this.tags == tags && this.knownTags == knownTags
    {
      this.tags := tags;
      this.knownTags := knownTags;
    }
  }

  /** A tag with both `default` and `test` matches its name only if its
      test passes as well. */
  predicate Deferred(t: Tag)
  {
    t.default && t.test.Some?
  }

  predicate Passes(t: Tag, value: string, matches: (nat, string) -> bool)
  {
    t.test.Some? && matches(t.test.value, value)
  }

  /** The name `findScalarTagByName` looks up: `!` is the string tag. */
  function LookupName(tagName: string): (name: string)
    ensures tagName == "!" ==> name == StrTag
    ensures tagName != "!" ==> name == tagName
  {
    if tagName == "!" then StrTag else tagName
  }

  /** A tag named `name` that the first loop of `findScalarTagByName`
      returns at once. */
  predicate PlainMatch(t: Tag, name: string)
  {
    t.tag == name && !Deferred(t)
  }

  /** A tag named `name` that is deferred and whose test passes. */
  predicate DeferredPass(t: Tag, name: string, value: string, matches: (nat, string) -> bool)
  {
    t.tag == name && Deferred(t) && Passes(t, value, matches)
  }

  /** The index of the first tag named `name` that is not deferred. */
  function FirstPlain(tags: seq<Tag>, name: string): (r: Option<nat>)
    ensures r.Some? ==> r.value < |tags| && PlainMatch(tags[r.value], name)
    ensures r.Some? ==> forall k :: 0 <= k < r.value ==> !PlainMatch(tags[k], name)
    ensures r.None? <==> forall k :: 0 <= k < |tags| ==> !PlainMatch(tags[k], name)
  {
    if tags == [] then None
    else if PlainMatch(tags[0], name) then Some(0)
    else Shift(FirstPlain(tags[1..], name))
  }

  /** The deferred tags named `name`, in schema order. */
  function DeferredNamed(tags: seq<Tag>, name: string): seq<Tag>
  {
    if tags == [] then []
    else
      var last := tags[|tags| - 1];
      DeferredNamed(tags[..|tags| - 1], name) + (if last.tag == name && Deferred(last) then [last] else [])
  }

  /** The collected tags are exactly the deferred tags of the schema that
      carry the name. */
  lemma {:induction false} DeferredNamedMembers(tags: seq<Tag>, name: string)
    ensures forall t :: t in DeferredNamed(tags, name) <==> t in tags && t.tag == name && Deferred(t)
    decreases |tags|
  {
    if tags != [] {
      var init := tags[..|tags| - 1];
      assert tags == init + [tags[|tags| - 1]];
      DeferredNamedMembers(init, name);
    }
  }

  /** The deferred tags are collected in schema order: those of a longer
      list are those of its first part, then those of the rest. */
  lemma {:induction false} DeferredNamedAppend(a: seq<Tag>, b: seq<Tag>, name: string)
    ensures DeferredNamed(a + b, name) == DeferredNamed(a, name) + DeferredNamed(b, name)
    decreases |b|
  {
    if b == [] {
      assert a + b == a;
    } else {
      var init := b[..|b| - 1];
      assert a + b == (a + init) + [b[|b| - 1]];
      assert (a + b)[..|a + b| - 1] == a + init;
      DeferredNamedAppend(a, init, name);
    }
  }

  /** The index of the first of `cands` whose test passes on `value`. */
  function FirstPassing(cands: seq<Tag>, value: string, matches: (nat, string) -> bool): (r: Option<nat>)
    ensures r.Some? ==> r.value < |cands| && Passes(cands[r.value], value, matches)
    ensures r.Some? ==> forall k :: 0 <= k < r.value ==> !Passes(cands[k], value, matches)
    ensures r.None? <==> forall k :: 0 <= k < |cands| ==> !Passes(cands[k], value, matches)
  {
    if cands == [] then None
    else if Passes(cands[0], value, matches) then Some(0)
    else Shift(FirstPassing(cands[1..], value, matches))
  }

  /** The index, in schema order, of the first deferred tag named `name`
      whose test passes: the tag the second loop of `findScalarTagByName`
      finds, stated as one scan of the schema. */
  function FirstDeferredPassing(tags: seq<Tag>, name: string, value: string, matches: (nat, string) -> bool)
    : (r: Option<nat>)
    ensures r.Some? ==> r.value < |tags| && DeferredPass(tags[r.value], name, value, matches)
    ensures r.Some? ==> forall k :: 0 <= k < r.value ==> !DeferredPass(tags[k], name, value, matches)
    ensures r.None? <==> forall k :: 0 <= k < |tags| ==> !DeferredPass(tags[k], name, value, matches)
  {
    if tags == [] then None
    else if DeferredPass(tags[0], name, value, matches) then Some(0)
    else Shift(FirstDeferredPassing(tags[1..], name, value, matches))
  }

  /** Collecting the deferred tags and then taking the first that passes
      finds the first deferred tag of the schema that passes. */
  lemma {:induction false} DeferredLookup(tags: seq<Tag>, name: string, value: string, matches: (nat, string) -> bool)
    ensures Agree(tags, name, value, matches)
    decreases |tags|
  {
    if tags != [] {
      DeferredLookup(tags[1..], name, value, matches);
      AgreeCons(tags[0], tags[1..], name, value, matches);
      assert tags == [tags[0]] + tags[1..];
    }
  }

  /** The two ways of finding the deferred tag agree on `tags`. */
  predicate Agree(tags: seq<Tag>, name: string, value: string, matches: (nat, string) -> bool)
  {
    var cands := DeferredNamed(tags, name);
    var j := FirstPassing(cands, value, matches);
    var i := FirstDeferredPassing(tags, name, value, matches);
    j.None? == i.None? && (j.Some? ==> cands[j.value] == tags[i.value])
  }

  lemma AgreeCons(t0: Tag, rest: seq<Tag>, name: string, value: string, matches: (nat, string) -> bool)
    requires Agree(rest, name, value, matches)
    ensures Agree([t0] + rest, name, value, matches)
  {
    var tags := [t0] + rest;
    assert tags[0] == t0 && tags[1..] == rest;
    DeferredNamedAppend([t0], rest, name);
    assert [t0][..0] == [];
    if !(t0.tag == name && Deferred(t0)) {
      AgreeSkip(t0, rest, name, value, matches);
    } else if Passes(t0, value, matches) {
      assert FirstPassing(DeferredNamed(tags, name), value, matches) == Some(0);
    } else {
      AgreeFail(t0, rest, name, value, matches);
    }
  }

  /** A head that is not a deferred tag of the name is skipped by both. */
  lemma AgreeSkip(t0: Tag, rest: seq<Tag>, name: string, value: string, matches: (nat, string) -> bool)
    requires Agree(rest, name, value, matches)
    requires !(t0.tag == name && Deferred(t0))
    requires DeferredNamed([t0] + rest, name) == DeferredNamed(rest, name)
    ensures Agree([t0] + rest, name, value, matches)
  {
    var tags := [t0] + rest;
    assert tags[1..] == rest;
    var i := FirstDeferredPassing(rest, name, value, matches);
    assert FirstDeferredPassing(tags, name, value, matches) == Shift(i);
    if i.Some? {
      assert tags[i.value + 1] == rest[i.value];
    }
  }

  /** A deferred head of the name whose test fails is skipped by both. */
  lemma AgreeFail(t0: Tag, rest: seq<Tag>, name: string, value: string, matches: (nat, string) -> bool)
    requires Agree(rest, name, value, matches)
    requires t0.tag == name && Deferred(t0) && !Passes(t0, value, matches)
    requires DeferredNamed([t0] + rest, name) == [t0] + DeferredNamed(rest, name)
    ensures Agree([t0] + rest, name, value, matches)
  {
    var tags := [t0] + rest;
    var cands, later := DeferredNamed(tags, name), DeferredNamed(rest, name);
    assert tags[1..] == rest && cands[1..] == later;
    var i := FirstDeferredPassing(rest, name, value, matches);
    var j := FirstPassing(later, value, matches);
    assert FirstDeferredPassing(tags, name, value, matches) == Shift(i);
    assert FirstPassing(cands, value, matches) == Shift(j);
    if i.Some? {
      assert tags[i.value + 1] == rest[i.value];
      assert cands[j.value + 1] == later[j.value];
    }
  }

  /** An index into the tail of a list, as an index into the list. */
  function Shift(i: Option<nat>): (r: Option<nat>)
    ensures r.Some? == i.Some? && (r.Some? ==> r.value == i.value + 1)
  {
    match i
    case Some(k) => Some(k + 1)
    case None => None
  }

  /** The first-index functions are determined by their contracts. */
  lemma FirstDeferredIs(tags: seq<Tag>, name: string, value: string, matches: (nat, string) -> bool, i: nat)
    requires i < |tags| && DeferredPass(tags[i], name, value, matches)
    requires forall k :: 0 <= k < i ==> !DeferredPass(tags[k], name, value, matches)
    ensures FirstDeferredPassing(tags, name, value, matches) == Some(i)
  {
  }

  lemma FirstPassingIs(cands: seq<Tag>, value: string, matches: (nat, string) -> bool, j: nat)
    requires j < |cands| && Passes(cands[j], value, matches)
    requires forall k :: 0 <= k < j ==> !Passes(cands[k], value, matches)
    ensures FirstPassing(cands, value, matches) == Some(j)
  {
  }

  /** The copy of a known tag that is added to the schema: it is not used
      by default and has no test. */
  function KnownCopy(kt: Tag): (r: Tag)
    ensures r.tag == kt.tag && r.format == kt.format && r.resolver == kt.resolver
    ensures !r.default && r.test.None? && !Deferred(r)
  {
    kt.(default := false, test := None)
  }

  /** What `findScalarTagByName` returns, reports and leaves in
      `schema.tags`. */
  datatype ByNameResult = ByNameResult(tag: Option<Tag>, errors: seq<Error>, tags: seq<Tag>)

  /** `findScalarTagByName` as a function of the tag list: the first tag
      with the name that is not deferred; with none, the first deferred tag
      with the name whose test passes; with none, the known tag of that
      name, whose copy is added to the list; with none, an error. */
  function ByName(tags: seq<Tag>, known: map<string, Tag>, tagName: Option<string>, value: string,
                  matches: (nat, string) -> bool): (r: ByNameResult)
    ensures tagName.None? || tagName == Some("") ==> r == ByNameResult(None, [], tags)
    ensures tagName.Some? && tagName.value != "" ==>
      var name := LookupName(tagName.value);
      var plain := FirstPlain(tags, name);
      var deferred := FirstDeferredPassing(tags, name, value, matches);
      (plain.Some? ==> r == ByNameResult(Some(tags[plain.value]), [], tags))
      && (plain.None? && deferred.Some? ==> r == ByNameResult(Some(tags[deferred.value]), [], tags))
      && (plain.None? && deferred.None? && name in known ==>
            r == ByNameResult(Some(known[name]), [], tags + [KnownCopy(known[name])]))
      && (plain.None? && deferred.None? && name !in known ==>
            r == ByNameResult(None, [Error(0, "Unresolved tag: " + name, name != StrTag)], tags))
    ensures r.tags == tags || (r.tag.Some? && r.errors == [] && r.tags == tags + [KnownCopy(r.tag.value)])
    ensures r.errors == [] || (r.tag.None? && r.tags == tags)
    ensures r.tag.Some? ==> r.tag.value in tags || r.tag.value in known.Values
  {
    if tagName.None? || tagName == Some("") then ByNameResult(None, [], tags)
    else
      var name := LookupName(tagName.value);
      match FirstPlain(tags, name)
      case Some(i) => ByNameResult(Some(tags[i]), [], tags)
      case None =>
        var cands := DeferredNamed(tags, name);
        DeferredLookup(tags, name, value, matches);
        match FirstPassing(cands, value, matches)
        case Some(j) => ByNameResult(Some(cands[j]), [], tags)
        case None =>
          if name in known then ByNameResult(Some(known[name]), [], tags + [KnownCopy(known[name])])
          else ByNameResult(None, [Error(0, "Unresolved tag: " + name, name != StrTag)], tags)
  }

  /** When no tag before `extra` qualifies, the first plain match of the
      longer list lies in `extra`. */
  lemma FirstPlainAppend(tags: seq<Tag>, extra: seq<Tag>, name: string)
    requires FirstPlain(tags, name).None?
    ensures FirstPlain(tags + extra, name).Some? == FirstPlain(extra, name).Some?
    ensures FirstPlain(extra, name).Some? ==>
      FirstPlain(tags + extra, name).Some? && FirstPlain(tags + extra, name).value == |tags| + FirstPlain(extra, name).value
  {
    var e := FirstPlain(extra, name);
    if e.Some? {
      NoPlainBefore(tags, extra, name, e.value);
      FirstPlainIs(tags + extra, name, |tags| + e.value);
    } else {
      NoPlainBefore(tags, extra, name, |extra|);
    }
  }

  /** No plain match among `tags` and the first `m` of `extra`. */
  lemma NoPlainBefore(tags: seq<Tag>, extra: seq<Tag>, name: string, m: nat)
    requires m <= |extra|
    requires forall k :: 0 <= k < |tags| ==> !PlainMatch(tags[k], name)
    requires forall k :: 0 <= k < m ==> !PlainMatch(extra[k], name)
    ensures m < |extra| ==> (tags + extra)[|tags| + m] == extra[m]
    ensures forall k :: 0 <= k < |tags| + m ==> !PlainMatch((tags + extra)[k], name)
  {
    var all := tags + extra;
    forall k | 0 <= k < |tags| + m
      ensures !PlainMatch(all[k], name)
    {
      if k >= |tags| {
        assert all[k] == extra[k - |tags|];
      } else {
        assert all[k] == tags[k];
      }
    }
  }

  /** Each known tag is filed under its own name. */
  predicate KnownByName(known: map<string, Tag>)
  {
    forall n :: n in known ==> known[n].tag == n
  }

  /** A known tag is added to the schema at most once: after it was added,
      any later lookup of the same name finds the copy, whatever the value,
      and leaves the list as it is. */
  lemma KnownTagAddedOnce(tags: seq<Tag>, known: map<string, Tag>, tagName: string, v1: string, v2: string,
                          matches: (nat, string) -> bool)
    requires KnownByName(known)
    requires ByName(tags, known, Some(tagName), v1, matches).tags != tags
    ensures var r1 := ByName(tags, known, Some(tagName), v1, matches);
      var r2 := ByName(r1.tags, known, Some(tagName), v2, matches);
      r2.tags == r1.tags && r2.tag == Some(KnownCopy(r1.tag.value)) && r2.errors == []
  {
    var name := LookupName(tagName);
    var kt := known[name];
    FirstPlainAppend(tags, [KnownCopy(kt)], name);
  }

  /** The first default tag whose test passes on `value`. */
  function FirstByTest(tags: seq<Tag>, value: string, matches: (nat, string) -> bool): (r: Option<nat>)
    ensures r.Some? ==> r.value < |tags| && tags[r.value].default && Passes(tags[r.value], value, matches)
    ensures r.Some? ==> forall k :: 0 <= k < r.value ==> !(tags[k].default && Passes(tags[k], value, matches))
    ensures r.None? ==> forall k :: 0 <= k < |tags| ==> !(tags[k].default && Passes(tags[k], value, matches))
  {
    if tags == [] then None
    else if tags[0].default && Passes(tags[0], value, matches) then Some(0)
    else match FirstByTest(tags[1..], value, matches)
      case Some(k) => Some(k + 1)
      case None => None
  }

  /** `findScalarTagByTest`: the first default tag whose test passes, only
      when `apply`. */
  function FindScalarTagByTest(tags: seq<Tag>, value: string, apply: bool, matches: (nat, string) -> bool)
    : (r: Option<Tag>)
    ensures !apply ==> r.None?
    ensures apply ==> r.Some? == FirstByTest(tags, value, matches).Some?
    ensures r.Some? ==> r.value == tags[FirstByTest(tags, value, matches).value]
  {
    if !apply then None
    else match FirstByTest(tags, value, matches)
      case Some(k) => Some(tags[k])
      case None => None
  }

  /** The first loop of `findScalarTagByName`: the first plain tag named
      `name`, collecting the deferred ones met before it. */
  method ScanTags(tags: seq<Tag>, name: string) returns (plain: Option<Tag>, deferred: seq<Tag>)
    ensures plain.Some? <==> FirstPlain(tags, name).Some?
    ensures plain.Some? ==> plain.value == tags[FirstPlain(tags, name).value]
    ensures plain.None? ==> deferred == DeferredNamed(tags, name)
  {
    deferred := [];
    var i := 0;
    while i < |tags|
      invariant 0 <= i <= |tags|
      invariant forall k :: 0 <= k < i ==> !PlainMatch(tags[k], name)
      invariant deferred == DeferredNamed(tags[..i], name)
    {
      var t := tags[i];
      assert tags[..i + 1][..i] == tags[..i];
      if t.tag == name {
        if t.default && t.test.Some? {
          deferred := deferred + [t];
        } else {
          FirstPlainIs(tags, name, i);
          return Some(t), deferred;
        }
      }
      i := i + 1;
    }
    assert tags[..i] == tags;
    plain := None;
  }

  lemma FirstPlainIs(tags: seq<Tag>, name: string, i: nat)
    requires i < |tags| && PlainMatch(tags[i], name)
    requires forall k :: 0 <= k < i ==> !PlainMatch(tags[k], name)
    ensures FirstPlain(tags, name) == Some(i)
  {
  }

  /** `findScalarTagByName(schema, value, tagName, onError)`. */
  method FindScalarTagByName(schema: Schema, value: string, tagName: Option<string>, matches: (nat, string) -> bool)
    returns (tag: Option<Tag>, errors: seq<Error>)
    modifies schema`tags
    ensures ByNameResult(tag, errors, schema.tags) == ByName(old(schema.tags), schema.knownTags, tagName, value, matches)
  {
    if tagName.None? || tagName == Some("") {
      return None, [];
    }
    var name := LookupName(tagName.value);
    var plain, deferred := ScanTags(schema.tags, name);
    if plain.Some? {
      return plain, [];
    }
    var j := 0;
    while j < |deferred|
      invariant 0 <= j <= |deferred|
      invariant forall k :: 0 <= k < j ==> !Passes(deferred[k], value, matches)
    {
      if Passes(deferred[j], value, matches) {
        FirstPassingIs(deferred, value, matches, j);
        return Some(deferred[j]), [];
      }
      j := j + 1;
    }
    if name in schema.knownTags {
      var kt := schema.knownTags[name];
      schema.tags := schema.tags + [KnownCopy(kt)];
      return Some(kt), [];
    }
    return None, [Error(0, "Unresolved tag: " + name, name != StrTag)];
  }

  /** The tag `composeScalar` chooses: by name, then by test for a plain
      scalar, then the tag of `!`; each lookup sees the tag list the one
      before it left. */
  function ChooseTag(tags: seq<Tag>, known: map<string, Tag>, tagName: Option<string>, value: string,
                     kind: ScalarKind, matches: (nat, string) -> bool): (r: ByNameResult)
    ensures tagName.None? && kind != PlainKind ==> r == ByName(tags, known, Some("!"), value, matches)
  {
    var first := ByName(tags, known, tagName, value, matches);
    if first.tag.Some? then first
    else
      var byTest := FindScalarTagByTest(first.tags, value, kind == PlainKind, matches);
      if byTest.Some? then ByNameResult(byTest, first.errors, first.tags)
      else
        var last := ByName(first.tags, known, Some("!"), value, matches);
        ByNameResult(last.tag, first.errors + last.errors, last.tags)
  }

  /** The three lookups of compose-scalar.ts:19-22. */
  method ChooseScalarTag(schema: Schema, tagName: Option<string>, kind: ScalarKind, value: string,
                         matches: (nat, string) -> bool)
    returns (tag: Option<Tag>, errors: seq<Error>)
    modifies schema`tags
    ensures ByNameResult(tag, errors, schema.tags) ==
      ChooseTag(old(schema.tags), schema.knownTags, tagName, value, kind, matches)
  {
    tag, errors := FindScalarTagByName(schema, value, tagName, matches);
    if tag.None? {
      tag := FindScalarTagByTest(schema.tags, value, kind == PlainKind, matches);
      if tag.None? {
        var more;
        tag, more := FindScalarTagByName(schema, value, Some("!"), matches);
        errors := errors + more;
      }
    }
  }

  /** A schema with a string tag always gives a scalar a tag. */
  lemma StrTagAlwaysChosen(tags: seq<Tag>, known: map<string, Tag>, tagName: Option<string>, value: string,
                           kind: ScalarKind, matches: (nat, string) -> bool)
    requires FirstPlain(tags, StrTag).Some?
    ensures ChooseTag(tags, known, tagName, value, kind, matches).tag.Some?
  {
    var first := ByName(tags, known, tagName, value, matches);
    if first.tag.None? {
      assert first.tags == tags;
    }
  }

  /** The errors `tag.resolve`'s messages become, at `offset`. */
  function AtOffset(offset: int, messages: seq<string>): (r: seq<Error>)
    ensures |r| == |messages|
    ensures forall k :: 0 <= k < |r| ==> r[k] == Error(offset, messages[k], false)
  {
    if messages == [] then [] else [Error(offset, messages[0], false)] + AtOffset(offset, messages[1..])
  }

  /** The node `tag.resolve` gives, before its fields are set
      (compose-scalar.ts:25-31). */
  function BaseScalar(tag: Option<Tag>, value: string, resolve: (Tag, string) -> Resolution): (s: Scalar)
    ensures tag.None? ==> s == Scalar(Str(value), None, None, None, None, None)
    ensures tag.Some? && resolve(tag.value, value).Threw? ==> s == Scalar(Str(value), None, None, None, None, None)
    ensures tag.Some? && resolve(tag.value, value).ReturnedScalar? ==> s == resolve(tag.value, value).scalar
    ensures tag.Some? && resolve(tag.value, value).ReturnedValue? ==>
      s == Scalar(resolve(tag.value, value).value, None, None, None, None, None)
  {
    if tag.None? then Scalar(Str(value), None, None, None, None, None)
    else match resolve(tag.value, value)
      case ReturnedScalar(_, sc) => sc
      case ReturnedValue(_, v) => Scalar(v, None, None, None, None, None)
      case Threw(_, _) => Scalar(Str(value), None, None, None, None, None)
  }

  /** The errors resolving reports at `offset`: its messages, then what it
      threw. */
  function ResolveErrors(tag: Option<Tag>, value: string, offset: int, resolve: (Tag, string) -> Resolution)
    : (r: seq<Error>)
    ensures tag.None? ==> r == []
    ensures tag.Some? && resolve(tag.value, value).Threw? ==>
      r == AtOffset(offset, resolve(tag.value, value).messages) + [Error(offset, resolve(tag.value, value).error, false)]
    ensures tag.Some? && !resolve(tag.value, value).Threw? ==> r == AtOffset(offset, resolve(tag.value, value).messages)
  {
    if tag.None? then []
    else match resolve(tag.value, value)
      case Threw(ms, e) => AtOffset(offset, ms) + [Error(offset, e, false)]
      case ReturnedScalar(ms, _) => AtOffset(offset, ms)
      case ReturnedValue(ms, _) => AtOffset(offset, ms)
  }

  predicate Truthy(s: Option<string>)
  {
    s.Some? && s.value != ""
  }

  /** `composeScalar(schema, tagName, token, onError)` for a token of kind
      `kind` at `offset` that the scalar resolver turned into `res`. */
  method ComposeScalar(schema: Schema, tagName: Option<string>, kind: ScalarKind, offset: int, res: Resolved,
                       matches: (nat, string) -> bool, resolve: (Tag, string) -> Resolution)
    returns (scalar: Scalar, errors: seq<Error>)
    modifies schema`tags
    ensures var c := ChooseTag(old(schema.tags), schema.knownTags, tagName, res.value, kind, matches);
      var base := BaseScalar(c.tag, res.value, resolve);
      schema.tags == c.tags
      && errors == res.errors + c.errors + ResolveErrors(c.tag, res.value, offset, resolve)
      && scalar.value == base.value
      && scalar.range == Some(Range(offset, offset + res.length))
      && scalar.scalarType == (if Truthy(res.scalarType) then res.scalarType else base.scalarType)
      && scalar.tag == (if Truthy(tagName) then tagName else base.tag)
      && scalar.format == (if c.tag.Some? && Truthy(c.tag.value.format) then c.tag.value.format else base.format)
      && scalar.comment == (if res.comment != "" then Some(res.comment) else base.comment)
  {
    var tag, errs := ChooseScalarTag(schema, tagName, kind, res.value, matches);
    scalar := BaseScalar(tag, res.value, resolve);
    errors := res.errors + errs + ResolveErrors(tag, res.value, offset, resolve);
    scalar := scalar.(range := Some(Range(offset, offset + res.length)));
    if Truthy(res.scalarType) {
      scalar := scalar.(scalarType := res.scalarType);
    }
    if Truthy(tagName) {
      scalar := scalar.(tag := tagName);
    }
    if tag.Some? && Truthy(tag.value.format) {
      scalar := scalar.(format := tag.value.format);
    }
    if res.comment != "" {
      scalar := scalar.(comment := Some(res.comment));
    }
  }
}
