/** Path templates: the placeholder pattern `<(?:([^:<>]+):)?([^<>]+)>` of
    `RestApi.RE_URL`, read the way Python's `re` engine reads it (greedy runs,
    backtracking to the untyped form when the typed form fails), its `findall`
    (the identifier chain), its `sub` with `{\2}` (the documentation path), and
    the collection path `'/'.join(path.split('/')[:-1])`. */
module Templates {
  import opened Base
  import opened Strings

  /** The OpenAPI type a path parameter is documented with. */
  datatype ParamType = StringType | IntegerType | NumberType {
    function Name(): string {
      match this
      case StringType => "string"
      case IntegerType => "integer"
      case NumberType => "number"
    }
  }

  datatype IdParam = IdParam(typ: ParamType, name: string)

  /** `RestApi.URL_CONVERTER_TO_TYPE`. */
  const ConverterTypes: map<string, ParamType> :=
    map["string" := StringType, "int" := IntegerType, "float" := NumberType, "path" := StringType]

  /** `URL_CONVERTER_TO_TYPE.get(type_, 'string')`: an absent converter (the empty
      group) and an unknown one are documented as strings rather than rejected. */
  function ConverterType(converter: string): (t: ParamType)
    ensures t == IntegerType <==> converter == "int"
    ensures t == NumberType <==> converter == "float"
    ensures t == StringType <==> converter != "int" && converter != "float"
  {
    if converter in ConverterTypes then ConverterTypes[converter] else StringType
  }

  /** Characters excluded from the converter group and from the name group. */
  const ConverterStop: set<char> := {':', '<', '>'}
  const NameStop: set<char> := {'<', '>'}

  /** One match of the pattern at the start of a string: group 1 (empty when it
      did not take part), group 2, and the number of characters consumed. */
  datatype Match = Match(converter: string, name: string, length: nat)

  /** The typed alternative `([^:<>]+):([^<>]+)>`, after the opening `<`. */
  function TypedHead(rest: string): (m: Option<Match>)
    ensures m.Some? ==> 2 <= m.value.length - 1 <= |rest|
  {
    var j1 := Span(rest, ConverterStop);
    if 0 < j1 < |rest| && rest[j1] == ':' then
      var after := rest[j1 + 1..];
      var j2 := Span(after, NameStop);
      if 0 < j2 < |after| && after[j2] == '>' then
        Some(Match(rest[..j1], after[..j2], j1 + j2 + 3))
      else None
    else None
  }

  /** The untyped alternative `([^<>]+)>`, after the opening `<`. */
  function UntypedHead(rest: string): (m: Option<Match>)
    ensures m.Some? ==> 2 <= m.value.length - 1 <= |rest|
  {
    var k := Span(rest, NameStop);
    if 0 < k < |rest| && rest[k] == '>' then Some(Match("", rest[..k], k + 2)) else None
  }

  /** The pattern anchored at the start of `s`. Each group is a greedy run of a
      negated class, so backtracking inside a group never helps; the only
      backtracking that matters is dropping the optional `type:` group. */
  function MatchHead(s: string): (m: Option<Match>)
    ensures m.Some? ==> 3 <= m.value.length <= |s|
  {
    if s == [] || s[0] != '<' then None
    else if TypedHead(s[1..]).Some? then TypedHead(s[1..])
    else UntypedHead(s[1..])
  }

  /** `RE_URL.findall(s)`: (group 1, group 2) of each non-overlapping match, left to right. */
  function FindAll(s: string): seq<(string, string)>
    decreases |s|
  {
    if s == [] then []
    else match MatchHead(s)
      case Some(m) => [(m.converter, m.name)] + FindAll(s[m.length..])
      case None => FindAll(s[1..])
  }

  /** Each (converter, name) pair with its converter's documented type. */
  function Typed(pairs: seq<(string, string)>): (ids: seq<IdParam>)
    ensures |ids| == |pairs|
  {
    seq(|pairs|, i requires 0 <= i < |pairs| => IdParam(ConverterType(pairs[i].0), pairs[i].1))
  }

  /** The identifier chain of a resource (`cls.id_params`). */
  function IdParams(path: string): (ids: seq<IdParam>)
    ensures |ids| == |FindAll(path)|
  {
    Typed(FindAll(path))
  }

  /** `RE_URL.sub(r'{\2}', path)`: the path as the API description shows it. */
  function DocPath(s: string): string
    decreases |s|
  {
    if s == [] then ""
    else match MatchHead(s)
      case Some(m) => "{" + m.name + "}" + DocPath(s[m.length..])
      case None => [s[0]] + DocPath(s[1..])
  }

  /** `'/'.join(path.split('/')[:-1])`: everything before the last `/`, or the
      empty string when there is none. */
  function CollectionPath(path: string): (r: string)
    ensures '/' !in path ==> r == ""
    ensures '/' in path ==> |r| < |path| && r == path[..|r|] && path[|r|] == '/' && '/' !in path[|r| + 1..]
  {
    var parts := Split(path, '/');
    JoinSplit(path, '/');
    if |parts| == 1 then
      assert path == parts[0];
      Join([], "/")
    else
      var init, last := parts[..|parts| - 1], parts[|parts| - 1];
      assert parts == init + [last];
      JoinSnoc(init, last, "/");
      var r := Join(init, "/");
      assert path == r + "/" + last;
      assert path[..|r|] == r && path[|r| + 1..] == last;
      r
  }

  // ---------------------------------------------------------------------
  // Templates built from pieces: what the parser is meant to recover.
  // ---------------------------------------------------------------------

  /** A template as literal text and placeholders `<converter:name>` / `<name>`. */
  datatype Piece = Text(text: string) | Slot(converter: Option<string>, name: string)

  ghost predicate WellFormedPiece(p: Piece) {
    match p
    case Text(t) => Avoids(t, {'<'})
    case Slot(None, n) => n != "" && Avoids(n, ConverterStop)
    case Slot(Some(c), n) => c != "" && Avoids(c, ConverterStop) && n != "" && Avoids(n, NameStop)
  }

  ghost predicate WellFormed(ps: seq<Piece>) {
    forall i :: 0 <= i < |ps| ==> WellFormedPiece(ps[i])
  }

  function RenderPiece(p: Piece): string {
    match p
    case Text(t) => t
    case Slot(None, n) => "<" + n + ">"
    case Slot(Some(c), n) => "<" + c + ":" + n + ">"
  }

  function Render(ps: seq<Piece>): string {
    if ps == [] then "" else RenderPiece(ps[0]) + Render(ps[1..])
  }

  /** The documentation form: each placeholder becomes `{name}`, text stays. */
  function RenderDoc(ps: seq<Piece>): string {
    if ps == [] then ""
    else (match ps[0] case Text(t) => t case Slot(_, n) => "{" + n + "}") + RenderDoc(ps[1..])
  }

  /** The identifier chain the pieces declare, in order. */
  function Declared(ps: seq<Piece>): seq<IdParam> {
    if ps == [] then []
    else
      (match ps[0]
       case Text(_) => []
       case Slot(c, n) => [IdParam(ConverterType(c.GetOr("")), n)])
      + Declared(ps[1..])
  }

  /** Text without `<` is skipped by the scanner and copied by the substitution. */
  lemma SkipText(t: string, rest: string)
    requires Avoids(t, {'<'})
    ensures FindAll(t + rest) == FindAll(rest)
    ensures DocPath(t + rest) == t + DocPath(rest)
  {
    ScanSkipsText(t, rest);
    SubstitutionCopiesText(t, rest);
  }

  /** Where no placeholder opens, the scanner and the substitution move one
      character on, the substitution copying it. */
  lemma NoMatchStep(s: string)
    requires s != [] && s[0] != '<'
    ensures FindAll(s) == FindAll(s[1..])
    ensures DocPath(s) == [s[0]] + DocPath(s[1..])
  {
    assert MatchHead(s) == None;
  }

  lemma {:induction false} ScanSkipsText(t: string, rest: string)
    requires Avoids(t, {'<'})
    ensures FindAll(t + rest) == FindAll(rest)
  {
    if t == [] {
      assert t + rest == rest;
    } else {
      var s := t + rest;
      assert s[0] == t[0] && t[0] != '<';
      assert s[1..] == t[1..] + rest;
      NoMatchStep(s);
      ScanSkipsText(t[1..], rest);
    }
  }

  lemma {:induction false} SubstitutionCopiesText(t: string, rest: string)
    requires Avoids(t, {'<'})
    ensures DocPath(t + rest) == t + DocPath(rest)
  {
    if t == [] {
      assert t + rest == rest;
    } else {
      var s := t + rest;
      assert s[0] == t[0] && t[0] != '<';
      assert s[1..] == t[1..] + rest;
      NoMatchStep(s);
      SubstitutionCopiesText(t[1..], rest);
      AppendAssoc([t[0]], t[1..], DocPath(rest));
      assert [t[0]] + t[1..] == t;
    }
  }

  /** A well-formed placeholder is matched whole, with its own groups. */
  lemma MatchSlot(p: Piece, rest: string)
    requires p.Slot? && WellFormedPiece(p)
    ensures MatchHead(RenderPiece(p) + rest) == Some(Match(p.converter.GetOr(""), p.name, |RenderPiece(p)|))
  {
    if p.converter.None? {
      MatchUntypedSlot(p.name, rest);
    } else {
      MatchTypedSlot(p.converter.value, p.name, rest);
    }
  }

  lemma MatchUntypedSlot(n: string, rest: string)
    requires n != "" && Avoids(n, ConverterStop)
    ensures MatchHead("<" + n + ">" + rest) == Some(Match("", n, |n| + 2))
  {
    var s := "<" + n + ">" + rest;
    var tail := ">" + rest;
    assert s[0] == '<' && s[1..] == n + tail;
    assert Avoids(n, NameStop);
    RunTo(n, ConverterStop, tail);
    RunTo(n, NameStop, tail);
    assert TypedHead(n + tail) == None;
  }

  lemma MatchTypedSlot(c: string, n: string, rest: string)
    requires c != "" && Avoids(c, ConverterStop) && n != "" && Avoids(n, NameStop)
    ensures MatchHead("<" + c + ":" + n + ">" + rest) == Some(Match(c, n, |c| + |n| + 3))
  {
    var s := "<" + c + ":" + n + ">" + rest;
    var tail := ">" + rest;
    assert s[0] == '<';
    assert s[1..] == c + (":" + (n + tail));
    TypedGroups(c, n, tail);
  }

  /** After the `<`: the converter runs to the `:`, the name to the `>`. */
  lemma TypedGroups(c: string, n: string, tail: string)
    requires c != "" && Avoids(c, ConverterStop) && n != "" && Avoids(n, NameStop)
    requires tail != [] && tail[0] == '>'
    ensures TypedHead(c + (":" + (n + tail))) == Some(Match(c, n, |c| + |n| + 3))
  {
    var mid := ":" + (n + tail);
    RunTo(c, ConverterStop, mid);
    RunTo(n, NameStop, tail);
    TypedHeadAt(c + mid, |c|, |n|);
  }

  /** A run that avoids the stop set, followed by a stop character, ends
      right there. */
  lemma RunTo(a: string, stop: set<char>, b: string)
    requires Avoids(a, stop) && b != [] && b[0] in stop
    ensures Span(a + b, stop) == |a|
    ensures (a + b)[|a|] == b[0] && (a + b)[..|a|] == a && (a + b)[|a| + 1..] == b[1..]
  {
    SpanAppend(a, b, stop);
  }

  /** The typed alternative in terms of where its two runs stop. */
  lemma TypedHeadAt(rest: string, k: nat, j: nat)
    requires 0 < k < |rest| && Span(rest, ConverterStop) == k && rest[k] == ':'
    requires 0 < j < |rest[k + 1..]| && Span(rest[k + 1..], NameStop) == j && rest[k + 1..][j] == '>'
    ensures TypedHead(rest) == Some(Match(rest[..k], rest[k + 1..][..j], k + j + 3))
  {
  }

  /** The (converter, name) text of each placeholder, in order. */
  function DeclaredPairs(ps: seq<Piece>): seq<(string, string)> {
    if ps == [] then []
    else
      (match ps[0]
       case Text(_) => []
       case Slot(c, n) => [(c.GetOr(""), n)])
      + DeclaredPairs(ps[1..])
  }

  /** Typing a list of pairs types its head and then its tail. */
  lemma TypedCons(q: (string, string), rest: seq<(string, string)>)
    ensures Typed([q] + rest) == [IdParam(ConverterType(q.0), q.1)] + Typed(rest)
  {
    assert forall i :: 0 < i <= |rest| ==> ([q] + rest)[i] == rest[i - 1];
  }

  /** The declared identifiers are the declared pairs, typed. */
  lemma {:induction false} DeclaredTyped(ps: seq<Piece>)
    ensures Declared(ps) == Typed(DeclaredPairs(ps))
  {
    if ps != [] {
      var ds, dp := Declared(ps[1..]), DeclaredPairs(ps[1..]);
      DeclaredTyped(ps[1..]);
      match ps[0] {
        case Text(_) =>
          assert Declared(ps) == [] + ds && [] + ds == ds;
          assert DeclaredPairs(ps) == [] + dp && [] + dp == dp;
        case Slot(c, n) =>
          assert Declared(ps) == [IdParam(ConverterType(c.GetOr("")), n)] + ds;
          assert DeclaredPairs(ps) == [(c.GetOr(""), n)] + dp;
          TypedCons((c.GetOr(""), n), dp);
      }
    }
  }

  lemma WellFormedTail(ps: seq<Piece>)
    requires WellFormed(ps) && ps != []
    ensures WellFormedPiece(ps[0]) && WellFormed(ps[1..])
  {
    forall i | 0 <= i < |ps[1..]| ensures WellFormedPiece(ps[1..][i]) {
      assert ps[1..][i] == ps[i + 1];
    }
  }

  /** Parsing recovers exactly the declared placeholders, one per placeholder,
      in left-to-right order, each with its converter's documented type. */
  lemma {:induction false} ParseRender(ps: seq<Piece>)
    requires WellFormed(ps)
    ensures FindAll(Render(ps)) == DeclaredPairs(ps)
    ensures IdParams(Render(ps)) == Declared(ps)
  {
    DeclaredTyped(ps);
    if ps != [] {
      WellFormedTail(ps);
      ParseRender(ps[1..]);
      var head, tail := RenderPiece(ps[0]), Render(ps[1..]);
      match ps[0] {
        case Text(t) =>
          SkipText(t, tail);
        case Slot(c, n) =>
          MatchSlot(ps[0], tail);
          var s := head + tail;
          assert s[|head|..] == tail;
      }
    }
  }

  /** The documentation path rewrites each placeholder to `{name}` and leaves
      every other character of the template as it is. */
  lemma {:induction false} DocRender(ps: seq<Piece>)
    requires WellFormed(ps)
    ensures DocPath(Render(ps)) == RenderDoc(ps)
  {
    if ps != [] {
      WellFormedTail(ps);
      DocRender(ps[1..]);
      var head, tail := RenderPiece(ps[0]), Render(ps[1..]);
      match ps[0] {
        case Text(t) =>
          SkipText(t, tail);
        case Slot(c, n) =>
          MatchSlot(ps[0], tail);
          var s := head + tail;
          assert s[|head|..] == tail;
      }
    }
  }

  /** A string without placeholders has no identifiers and documents as itself. */
  lemma NoPlaceholders(s: string)
    requires Avoids(s, {'<'})
    ensures IdParams(s) == [] && DocPath(s) == s
  {
    SkipText(s, "");
    assert s + "" == s;
  }

  lemma {:induction false} RenderConcat(xs: seq<Piece>, ys: seq<Piece>)
    ensures Render(xs + ys) == Render(xs) + Render(ys)
  {
    if xs == [] {
      assert xs + ys == ys;
    } else {
      assert (xs + ys)[0] == xs[0] && (xs + ys)[1..] == xs[1..] + ys;
      RenderConcat(xs[1..], ys);
      AppendAssoc(RenderPiece(xs[0]), Render(xs[1..]), Render(ys));
    }
  }

  lemma {:induction false} DeclaredConcat(xs: seq<Piece>, ys: seq<Piece>)
    ensures Declared(xs + ys) == Declared(xs) + Declared(ys)
  {
    if xs == [] {
      assert xs + ys == ys;
    } else {
      assert (xs + ys)[0] == xs[0] && (xs + ys)[1..] == xs[1..] + ys;
      DeclaredConcat(xs[1..], ys);
      var head := match xs[0] case Text(_) => [] case Slot(c, n) => [IdParam(ConverterType(c.GetOr("")), n)];
      AppendAssoc(head, Declared(xs[1..]), Declared(ys));
    }
  }

  /** An item template: a well-formed parent, a slash and one placeholder. */
  lemma ItemWellFormed(parent: seq<Piece>, own: Piece)
    requires WellFormed(parent) && own.Slot? && WellFormedPiece(own)
    ensures WellFormed(parent + [Text("/"), own])
  {
    var ps := parent + [Text("/"), own];
    forall i | 0 <= i < |ps| ensures WellFormedPiece(ps[i]) {
      if i < |parent| { assert ps[i] == parent[i]; }
      else if i == |parent| { assert ps[i] == Text("/"); assert Avoids("/", {'<'}); }
      else { assert ps[i] == own; }
    }
  }

  /** For an item template whose last segment is a single placeholder, the
      collection path is the template without that segment, and its
      placeholders are exactly the parent identifiers (all but the last). */
  lemma CollectionOfItem(parent: seq<Piece>, own: Piece)
    requires WellFormed(parent) && own.Slot? && WellFormedPiece(own)
    requires '/' !in RenderPiece(own)
    ensures CollectionPath(Render(parent + [Text("/"), own])) == Render(parent)
    ensures IdParams(Render(parent)) == DropLast(IdParams(Render(parent + [Text("/"), own])))
  {
    CollectionPathOfItem(parent, own);
    ItemIds(parent, own);
    var ids := IdParams(Render(parent));
    var full := IdParams(Render(parent + [Text("/"), own]));
    assert |DropLast(full)| == |ids|;
    forall i | 0 <= i < |ids| ensures DropLast(full)[i] == ids[i] {
      assert full[i] == ids[i];
    }
  }

  /** The collection path of an item template is its parent template. */
  lemma CollectionPathOfItem(parent: seq<Piece>, own: Piece)
    requires own.Slot? && '/' !in RenderPiece(own)
    ensures CollectionPath(Render(parent + [Text("/"), own])) == Render(parent)
  {
    RenderConcat(parent, [Text("/"), own]);
    var a, b := Render(parent), RenderPiece(own);
    assert Render([Text("/"), own]) == "/" + b by {
      assert [Text("/"), own][1..] == [own];
      assert Render([own]) == b + Render([]);
    }
    assert Render(parent + [Text("/"), own]) == a + "/" + b;
    LastSlash(a, b);
  }

  /** Cutting at the last `/` of `a/b`, where `b` has none, leaves `a`. */
  lemma LastSlash(a: string, b: string)
    requires '/' !in b
    ensures CollectionPath(a + "/" + b) == a
  {
    var path := a + "/" + b;
    assert path[|a|] == '/' && path[..|a|] == a && path[|a| + 1..] == b;
    var r := CollectionPath(path);
    NotInSuffix(path, |r| + 1, '/');
    NotInSuffix(path, |a| + 1, '/');
  }

  /** An item template declares its parent's identifiers and then its own
      placeholder, typed by its converter. */
  lemma ItemIds(parent: seq<Piece>, own: Piece)
    requires WellFormed(parent) && own.Slot? && WellFormedPiece(own)
    ensures IdParams(Render(parent + [Text("/"), own]))
            == IdParams(Render(parent)) + [IdParam(ConverterType(own.converter.GetOr("")), own.name)]
  {
    ItemWellFormed(parent, own);
    ParseRender(parent + [Text("/"), own]);
    ParseRender(parent);
    DeclaredConcat(parent, [Text("/"), own]);
    assert Declared([Text("/"), own]) == Declared([own]) by {
      assert [Text("/"), own][1..] == [own];
    }
    assert Declared([own]) == [IdParam(ConverterType(own.converter.GetOr("")), own.name)] by {
      assert [own][1..] == [];
    }
  }
}
