/** Command-line tool templates: `{name}` placeholders inside argv elements, the lint that looks
    for values a binary could read as options, and the rendering of a call's arguments. */
module Argv {
  import opened Wrappers

  /** An element is read as literal characters and references. */
  datatype Piece = Text(c: char) | Ref(name: string)

  predicate IsWord(c: char) {
    'a' <= c <= 'z' || 'A' <= c <= 'Z' || '0' <= c <= '9' || c == '_'
  }

  function WordLength(s: string): (n: nat)
    ensures n <= |s| && (n < |s| ==> !IsWord(s[n]))
    ensures forall k :: 0 <= k < n ==> IsWord(s[k])
  {
    if s != "" && IsWord(s[0]) then 1 + WordLength(s[1..]) else 0
  }

  /** The length of the placeholder `s` begins with, if it begins with one. */
  function PlaceholderLength(s: string): (n: Option<nat>)
    ensures n.Some? ==>
              && 2 < n.value <= |s| && s[0] == '{' && s[n.value - 1] == '}'
              && forall k :: 1 <= k < n.value - 1 ==> IsWord(s[k])
  {
    if s == "" || s[0] != '{' then None
    else
      var n := WordLength(s[1..]);
      if n > 0 && n + 1 < |s| && s[n + 1] == '}' then Some(n + 2) else None
  }

  /** Left to right, each placeholder at the first place one starts. */
  function Pieces(s: string): seq<Piece> {
    if s == "" then []
    else
      match PlaceholderLength(s)
      case Some(n) => [Ref(s[1..n - 1])] + Pieces(s[n..])
      case None => [Text(s[0])] + Pieces(s[1..])
  }

  function Shown(p: Piece): string {
    if p.Text? then [p.c] else "{" + p.name + "}"
  }

  function Unparse(ps: seq<Piece>): string {
    if ps == [] then "" else Shown(ps[0]) + Unparse(ps[1..])
  }

  lemma PlaceholderText(s: string, n: nat)
    requires PlaceholderLength(s) == Some(n)
    ensures Shown(Ref(s[1..n - 1])) == s[..n]
  {
    var name := s[1..n - 1];
    assert s[..n] == [s[0]] + name + [s[n - 1]];
    assert "{" == [s[0]] && "}" == [s[n - 1]];
  }

  lemma UnparseCons(p: Piece, ps: seq<Piece>)
    ensures Unparse([p] + ps) == Shown(p) + Unparse(ps)
  {
    assert ([p] + ps)[1..] == ps;
  }

  /** Nothing of an element is lost or reordered by reading it. */
  lemma {:induction false} ReadingLosesNothing(s: string)
    ensures Unparse(Pieces(s)) == s
  {
    if s != "" {
      match PlaceholderLength(s)
      case Some(n) =>
        ReadingLosesNothing(s[n..]);
        PlaceholderText(s, n);
        UnparseCons(Ref(s[1..n - 1]), Pieces(s[n..]));
      case None =>
        ReadingLosesNothing(s[1..]);
        UnparseCons(Text(s[0]), Pieces(s[1..]));
    }
  }

  ghost predicate Plain(ps: seq<Piece>) {
    forall p :: p in ps ==>
                  match p
                  case Text(c) => c != '{'
                  case Ref(name) => name != "" && forall c :: c in name ==> IsWord(c)
  }

  lemma {:induction false} WordLengthOfName(name: string, rest: string)
    requires rest != "" && !IsWord(rest[0]) && forall c :: c in name ==> IsWord(c)
    ensures WordLength(name + rest) == |name|
  {
    if name != "" {
      assert (name + rest)[1..] == name[1..] + rest && (name + rest)[0] == name[0];
      WordLengthOfName(name[1..], rest);
    } else {
      assert name + rest == rest;
    }
  }

  lemma PlaceholderIsRead(name: string, rest: string)
    requires name != "" && forall c :: c in name ==> IsWord(c)
    ensures Pieces("{" + name + "}" + rest) == [Ref(name)] + Pieces(rest)
  {
    var s := "{" + name + "}" + rest;
    assert s[1..] == name + ("}" + rest);
    WordLengthOfName(name, "}" + rest);
    assert PlaceholderLength(s) == Some(|name| + 2);
    assert s[1..|name| + 1] == name && s[|name| + 2..] == rest;
  }

  lemma TextIsRead(c: char, rest: string)
    requires c != '{'
    ensures Pieces([c] + rest) == [Text(c)] + Pieces(rest)
  {
    assert ([c] + rest)[1..] == rest;
  }

  /** A template written from pieces is read back as those pieces. */
  lemma {:induction false} WritingIsReadBack(ps: seq<Piece>)
    requires Plain(ps)
    ensures Pieces(Unparse(ps)) == ps
  {
    if ps != [] {
      var first, others := ps[0], ps[1..];
      assert Plain(others) by {
        assert forall p :: p in others ==> p in ps;
      }
      WritingIsReadBack(others);
      assert first in ps && Unparse(ps) == Shown(first) + Unparse(others);
      match first
      case Ref(name) => PlaceholderIsRead(name, Unparse(others));
      case Text(c) => TextIsRead(c, Unparse(others));
    }
  }

  predicate Resolves(ps: seq<Piece>, args: map<string, string>) {
    forall i :: 0 <= i < |ps| && ps[i].Ref? ==> ps[i].name in args
  }

  /** The rendered token: literal characters and argument values, in template order. A value
      is never read again, whatever braces it contains. */
  function Rendered(ps: seq<Piece>, args: map<string, string>): string
    requires Resolves(ps, args)
  {
    if ps == [] then ""
    else (if ps[0].Text? then [ps[0].c] else args[ps[0].name]) + Rendered(ps[1..], args)
  }

  lemma ResolvesBoth(a: seq<Piece>, b: seq<Piece>, args: map<string, string>)
    ensures Resolves(a + b, args) <==> Resolves(a, args) && Resolves(b, args)
  {
    assert forall i :: 0 <= i < |a| ==> (a + b)[i] == a[i];
    assert forall i :: 0 <= i < |b| ==> (a + b)[|a| + i] == b[i];
  }

  /** A literal character renders as itself, a reference as its value in full. */
  lemma RenderedCons(p: Piece, ps: seq<Piece>, args: map<string, string>)
    requires Resolves([p] + ps, args)
    ensures Resolves(ps, args) && (p.Ref? ==> p.name in args)
    ensures Rendered([p] + ps, args) == (if p.Text? then [p.c] else args[p.name]) + Rendered(ps, args)
  {
    ResolvesBoth([p], ps, args);
    assert ([p] + ps)[0] == p && ([p] + ps)[1..] == ps;
  }

  lemma Joined(x: string, y: string, z: string)
    ensures x + (y + z) == (x + y) + z
  {
  }

  /** What stands side by side in the template stands side by side in the token. */
  lemma {:induction false} RenderingIsPieceByPiece(a: seq<Piece>, b: seq<Piece>, args: map<string, string>)
    requires Resolves(a, args) && Resolves(b, args)
    ensures Resolves(a + b, args) && Rendered(a + b, args) == Rendered(a, args) + Rendered(b, args)
  {
    ResolvesBoth(a, b, args);
    if a == [] {
      assert a + b == b;
    } else {
      var p, rest := a[0], a[1..];
      assert a == [p] + rest && a + b == [p] + (rest + b);
      RenderedCons(p, rest, args);
      RenderedCons(p, rest + b, args);
      RenderingIsPieceByPiece(rest, b, args);
      Joined(if p.Text? then [p.c] else args[p.name], Rendered(rest, args), Rendered(b, args));
    }
  }

  function RenderedArgv(template: seq<string>, args: map<string, string>): seq<string> {
    if template == [] then []
    else
      var before, last := template[..|template| - 1], template[|template| - 1];
      RenderedArgv(before, args)
      + if Resolves(Pieces(last), args) then [Rendered(Pieces(last), args)] else []
  }

  /** Which template elements are rendered: those all of whose references have a value. */
  function Kept(template: seq<string>, args: map<string, string>): seq<nat> {
    if template == [] then []
    else
      var n := |template| - 1;
      Kept(template[..n], args) + if Resolves(Pieces(template[n]), args) then [n] else []
  }

  lemma {:induction false} KeptAreTheResolved(template: seq<string>, args: map<string, string>)
    ensures forall i: nat :: i in Kept(template, args) <==> i < |template| && Resolves(Pieces(template[i]), args)
  {
    if template != [] {
      KeptAreTheResolved(template[..|template| - 1], args);
    }
  }

  lemma {:induction false} KeptAscend(template: seq<string>, args: map<string, string>)
    ensures forall j, k :: 0 <= j < k < |Kept(template, args)| ==> Kept(template, args)[j] < Kept(template, args)[k]
  {
    if template != [] {
      var before := template[..|template| - 1];
      KeptAscend(before, args);
      KeptAreTheResolved(before, args);
      assert forall k :: 0 <= k < |Kept(before, args)| ==> Kept(before, args)[k] in Kept(before, args);
    }
  }

  ghost predicate IsTokenOf(template: seq<string>, args: map<string, string>, i: nat, token: string) {
    i < |template| && Resolves(Pieces(template[i]), args) && token == Rendered(Pieces(template[i]), args)
  }

  /** Rendering keeps template order and never splits or joins: the kept elements are exactly
      those whose references all have values, and token `k` is the rendering of the k-th. */
  lemma {:induction false} OneTokenPerKeptElement(template: seq<string>, args: map<string, string>)
    ensures var kept := Kept(template, args); var tokens := RenderedArgv(template, args);
      && |tokens| == |kept|
      && (forall k :: 0 <= k < |kept| ==> IsTokenOf(template, args, kept[k], tokens[k]))
  {
    if template != [] {
      OneTokenPerKeptElement(template[..|template| - 1], args);
    }
  }

  /** The references nothing literal comes before: the leading run. */
  function LeadingRefs(ps: seq<Piece>): set<string> {
    if ps == [] || ps[0].Text? then {} else {ps[0].name} + LeadingRefs(ps[1..])
  }

  function LeadingText(ps: seq<Piece>): string {
    if ps == [] || ps[0].Ref? then "" else [ps[0].c] + LeadingText(ps[1..])
  }

  function Operands(template: seq<string>): nat {
    if template == [] || template[0] == "--" then 0 else 1 + Operands(template[1..])
  }

  /** What the lint reports: the leading references of the elements before the first `--`. */
  function Unsafe(template: seq<string>): set<string> {
    if template == [] || template[0] == "--" then {}
    else LeadingRefs(Pieces(template[0])) + Unsafe(template[1..])
  }

  ghost predicate ReportedAt(template: seq<string>, i: nat, name: string) {
    i < Operands(template) && i < |template| && name in LeadingRefs(Pieces(template[i]))
  }

  lemma {:induction false} UnsafeCollects(template: seq<string>, name: string)
    ensures name in Unsafe(template) <==> exists i: nat :: ReportedAt(template, i, name)
  {
    if template != [] && template[0] != "--" {
      UnsafeCollects(template[1..], name);
      if name in LeadingRefs(Pieces(template[0])) {
        assert ReportedAt(template, 0, name);
      }
      if i: nat :| ReportedAt(template[1..], i, name) {
        assert ReportedAt(template, i + 1, name);
      }
      if i: nat :| ReportedAt(template, i, name) && i > 0 {
        assert ReportedAt(template[1..], i - 1, name);
      }
    }
  }

  lemma {:induction false} TokenStartsWithLeadingText(ps: seq<Piece>, args: map<string, string>)
    requires Resolves(ps, args)
    ensures LeadingText(ps) <= Rendered(ps, args)
    ensures (forall i :: 0 <= i < |ps| ==> ps[i].Text?) ==> Rendered(ps, args) == LeadingText(ps)
  {
    if ps != [] && ps[0].Text? {
      TokenStartsWithLeadingText(ps[1..], args);
    }
  }

  ghost predicate HasRefs(ps: seq<Piece>) {
    exists i :: 0 <= i < |ps| && ps[i].Ref?
  }

  lemma {:induction false} NoLeadingRefs(ps: seq<Piece>)
    ensures LeadingRefs(ps) == {} <==> (HasRefs(ps) ==> LeadingText(ps) != "")
  {
    if ps != [] && ps[0].Ref? {
      assert ps[0].name in LeadingRefs(ps);
    }
  }

  /** Element `i` is before the first `--` and, if it has a placeholder, begins with literal
      text of its own. */
  ghost predicate Anchored(template: seq<string>, i: nat) {
    i < |template| && i < Operands(template) && HasRefs(Pieces(template[i])) ==> LeadingText(Pieces(template[i])) != ""
  }

  /** The lint is silent exactly when every element before the first `--` is anchored. */
  lemma SilentLintMeansAnchored(template: seq<string>)
    ensures Unsafe(template) == {} <==> forall i: nat :: Anchored(template, i)
  {
    if name :| name in Unsafe(template) {
      UnsafeCollects(template, name);
      var i: nat :| ReportedAt(template, i, name);
      NoLeadingRefs(Pieces(template[i]));
      assert !Anchored(template, i);
    }
    if i: nat :| !Anchored(template, i) {
      NoLeadingRefs(Pieces(template[i]));
      var name :| name in LeadingRefs(Pieces(template[i]));
      assert ReportedAt(template, i, name);
      UnsafeCollects(template, name);
    }
  }

  /** With a silent lint, for all arguments, a token rendered from an element before the first
      `--` begins with the element's own literal text; and that text is not empty unless the
      element has no placeholder, in which case it is the whole token. */
  lemma AnchoredTokensStartWithTheirText(template: seq<string>, args: map<string, string>, i: nat, token: string)
    requires Unsafe(template) == {} && i < Operands(template) && IsTokenOf(template, args, i, token)
    ensures var own := LeadingText(Pieces(template[i]));
      own <= token && (if HasRefs(Pieces(template[i])) then own != "" else token == own == template[i])
  {
    SilentLintMeansAnchored(template);
    assert Anchored(template, i);
    var ps := Pieces(template[i]);
    TokenStartsWithLeadingText(ps, args);
    if !HasRefs(ps) {
      ReadingLosesNothing(template[i]);
      TextIsItself(ps);
    }
  }

  lemma {:induction false} TextIsItself(ps: seq<Piece>)
    requires forall i :: 0 <= i < |ps| ==> ps[i].Text?
    ensures LeadingText(ps) == Unparse(ps)
  {
    if ps != [] {
      TextIsItself(ps[1..]);
    }
  }

  function Only(ps: seq<Piece>, name: string, value: string): map<string, string> {
    if ps == [] then map[]
    else
      var rest := Only(ps[1..], name, value);
      if ps[0].Text? then rest else rest[ps[0].name := if ps[0].name == name then value else ""]
  }

  lemma {:induction false} OnlyValues(ps: seq<Piece>, name: string, value: string)
    ensures var args := Only(ps, name, value);
      && Resolves(ps, args) && (forall n :: n in args ==> args[n] == if n == name then value else "")
  {
    if ps != [] {
      OnlyValues(ps[1..], name, value);
      assert forall i :: 1 <= i < |ps| ==> ps[i] == ps[1..][i - 1];
    }
  }

  lemma {:induction false} LeadingRefCanStart(ps: seq<Piece>, args: map<string, string>, name: string, value: string)
    requires Resolves(ps, args) && name in LeadingRefs(ps)
    requires forall n :: n in args ==> args[n] == if n == name then value else ""
    ensures value <= Rendered(ps, args)
  {
    if ps[0].name != name {
      LeadingRefCanStart(ps[1..], args, name, value);
      assert Rendered(ps, args) == "" + Rendered(ps[1..], args);
    }
  }

  /** No report is a false alarm: whatever string the caller likes, some arguments make the
      token of a reported element begin with it. */
  lemma EveryReportIsReal(template: seq<string>, name: string, value: string)
    requires name in Unsafe(template)
    ensures exists i: nat, args: map<string, string>, token ::
              && IsTokenOf(template, args, i, token) && i < Operands(template)
              && name in args && args[name] == value && value <= token
  {
    UnsafeCollects(template, name);
    var i: nat :| ReportedAt(template, i, name);
    var ps := Pieces(template[i]);
    var args := Only(ps, name, value);
    OnlyValues(ps, name, value);
    LeadingRefCanStart(ps, args, name, value);
    LeadingRefIsRef(ps, name);
    assert IsTokenOf(template, args, i, Rendered(ps, args));
  }

  lemma {:induction false} LeadingRefIsRef(ps: seq<Piece>, name: string)
    requires name in LeadingRefs(ps)
    ensures exists i :: 0 <= i < |ps| && ps[i] == Ref(name)
  {
    if ps[0].name == name {
      assert ps[0] == Ref(name);
    } else {
      LeadingRefIsRef(ps[1..], name);
      var i :| 0 <= i < |ps[1..]| && ps[1..][i] == Ref(name);
      assert ps[i + 1] == Ref(name);
    }
  }

  // The loops, as the code has them.

  datatype Match = Match(index: nat, end: nat, name: string)

  /** The matches in `s`, whose first character is at position `at` of the element. */
  function Matches(s: string, at: nat): seq<Match> {
    if s == "" then []
    else
      match PlaceholderLength(s)
      case Some(n) => [Match(at, at + n, s[1..n - 1])] + Matches(s[n..], at + n)
      case None => Matches(s[1..], at + 1)
  }

  /** The names the inner loop still reports, from a match list, a cursor and its flag. */
  function Reported(ms: seq<Match>, cursor: nat, literalBefore: bool): set<string> {
    if ms == [] then {}
    else
      var literal := literalBefore || ms[0].index > cursor;
      (if literal then {} else {ms[0].name}) + Reported(ms[1..], ms[0].end, literal)
  }

  lemma {:induction false} ReportedNothing(ms: seq<Match>, cursor: nat)
    ensures Reported(ms, cursor, true) == {}
  {
    if ms != [] {
      ReportedNothing(ms[1..], ms[0].end);
    }
  }

  lemma {:induction false} MatchesStartLater(s: string, at: nat)
    ensures Matches(s, at) != [] ==> Matches(s, at)[0].index >= at
  {
    if s != "" && PlaceholderLength(s).None? {
      MatchesStartLater(s[1..], at + 1);
    }
  }

  /** The flag and the cursor together see exactly the leading run. */
  lemma {:induction false} ReportedAreLeading(s: string, at: nat)
    ensures Reported(Matches(s, at), at, false) == LeadingRefs(Pieces(s))
  {
    if s != "" {
      match PlaceholderLength(s)
      case Some(n) => ReportedAreLeading(s[n..], at + n);
      case None =>
        MatchesStartLater(s[1..], at + 1);
        if Matches(s, at) != [] {
          ReportedNothing(Matches(s, at)[1..], Matches(s, at)[0].end);
        }
    }
  }

  lemma {:induction false} UnsafeSnoc(template: seq<string>, i: nat)
    requires i < |template| && Operands(template) >= i
    ensures i + 1 <= |template|
    ensures Unsafe(template[..i + 1]) == if template[i] == "--" then Unsafe(template[..i])
                                         else Unsafe(template[..i]) + LeadingRefs(Pieces(template[i]))
    ensures Operands(template) > i <==> template[i] != "--"
  {
    if i > 0 {
      UnsafeSnoc(template[1..], i - 1);
      assert template[1..][..i] == template[..i + 1][1..] && template[1..][..i - 1] == template[..i][1..];
    } else {
      assert template[..1][1..] == [];
    }
  }

  lemma {:induction false} UnsafeStopsAtOperands(template: seq<string>, i: nat)
    requires i <= |template| && Operands(template) < i
    ensures Unsafe(template[..i]) == Unsafe(template)
  {
    if template[0] != "--" {
      UnsafeStopsAtOperands(template[1..], i - 1);
      assert template[1..][..i - 1] == template[..i][1..];
    }
  }

  lemma ReportedNext(ms: seq<Match>, m: nat, cursor: nat, literalBefore: bool)
    requires m < |ms|
    ensures var literal := literalBefore || ms[m].index > cursor;
      Reported(ms[m..], cursor, literalBefore)
      == (if literal then {} else {ms[m].name}) + Reported(ms[m + 1..], ms[m].end, literal)
  {
    assert ms[m..][1..] == ms[m + 1..];
  }

  /** The lint, as a set: its sorting is presentation. */
  method UnsafeArgvPlaceholders(argv: seq<string>) returns (names: set<string>)
    ensures names == Unsafe(argv)
  {
    names := {};
    var afterDoubleDash := false;
    for k := 0 to |argv|
      invariant names == Unsafe(argv[..k])
      invariant if afterDoubleDash then Operands(argv) < k else Operands(argv) >= k
    {
      if afterDoubleDash {
        UnsafeStopsAtOperands(argv, k);
        UnsafeStopsAtOperands(argv, k + 1);
        continue;
      }
      UnsafeSnoc(argv, k);
      if argv[k] == "--" {
        afterDoubleDash := true;
        continue;
      }
      var found := Matches(argv[k], 0);
      ReportedAreLeading(argv[k], 0);
      var cursor, literalBefore := 0, false;
      for m := 0 to |found|
        invariant names + Reported(found[m..], cursor, literalBefore) == Unsafe(argv[..k + 1])
      {
        ReportedNext(found, m, cursor, literalBefore);
        if found[m].index > cursor {
          literalBefore := true;
        }
        if !literalBefore {
          names := names + {found[m].name};
        }
        cursor := found[m].end;
      }
    }
    assert argv[..|argv|] == argv;
  }

  ghost predicate AllNamed(ms: seq<Match>, args: map<string, string>) {
    forall k :: 0 <= k < |ms| ==> ms[k].name in args
  }

  lemma {:induction false} MatchesAreRefs(s: string, at: nat, args: map<string, string>)
    ensures AllNamed(Matches(s, at), args) <==> Resolves(Pieces(s), args)
  {
    if s != "" {
      var ps, ms := Pieces(s), Matches(s, at);
      match PlaceholderLength(s)
      case Some(n) =>
        MatchesAreRefs(s[n..], at + n, args);
        ResolvesCons(ps, args);
        assert AllNamed(ms, args) <==> ms[0].name in args && AllNamed(ms[1..], args) by {
          assert forall k :: 1 <= k < |ms| ==> ms[k] == ms[1..][k - 1];
        }
      case None =>
        MatchesAreRefs(s[1..], at + 1, args);
        ResolvesCons(ps, args);
    }
  }

  lemma ResolvesCons(ps: seq<Piece>, args: map<string, string>)
    requires ps != []
    ensures Resolves(ps, args) <==> (ps[0].Ref? ==> ps[0].name in args) && Resolves(ps[1..], args)
  {
    assert forall i :: 1 <= i < |ps| ==> ps[i] == ps[1..][i - 1];
  }

  predicate InOrder(ms: seq<Match>, cursor: nat, length: nat) {
    if ms == [] then cursor <= length
    else cursor <= ms[0].index <= ms[0].end && InOrder(ms[1..], ms[0].end, length)
  }

  lemma {:induction false} InOrderIsBounded(ms: seq<Match>, cursor: nat, length: nat)
    requires InOrder(ms, cursor, length)
    ensures cursor <= length && (ms != [] ==> cursor <= ms[0].index <= ms[0].end <= length)
  {
    if ms != [] {
      InOrderIsBounded(ms[1..], ms[0].end, length);
    }
  }

  lemma {:induction false} MatchesInOrder(s: string, at: nat)
    ensures InOrder(Matches(s, at), at, at + |s|)
  {
    if s != "" {
      match PlaceholderLength(s)
      case Some(n) => MatchesInOrder(s[n..], at + n);
      case None => MatchesInOrder(s[1..], at + 1);
    }
  }

  /** What a pass over the matches has still to write from a cursor on: literal text up to the
      next match, that match's value, and so on. */
  function Spliced(element: string, ms: seq<Match>, cursor: nat, args: map<string, string>): string
    requires InOrder(ms, cursor, |element|) && AllNamed(ms, args)
  {
    InOrderIsBounded(ms, cursor, |element|);
    if ms == [] then element[cursor..]
    else element[cursor..ms[0].index] + args[ms[0].name] + Spliced(element, ms[1..], ms[0].end, args)
  }

  lemma SplicedText(element: string, ms: seq<Match>, cursor: nat, args: map<string, string>)
    requires AllNamed(ms, args) && cursor < |element|
    requires InOrder(ms, cursor, |element|) && InOrder(ms, cursor + 1, |element|)
    ensures Spliced(element, ms, cursor, args) == [element[cursor]] + Spliced(element, ms, cursor + 1, args)
  {
    InOrderIsBounded(ms, cursor + 1, |element|);
    if ms != [] {
      assert element[cursor..ms[0].index] == [element[cursor]] + element[cursor + 1..ms[0].index];
    }
  }

  lemma SplicedValue(element: string, ms: seq<Match>, cursor: nat, args: map<string, string>)
    requires ms != [] && ms[0].index == cursor && AllNamed(ms, args) && InOrder(ms, cursor, |element|)
    ensures AllNamed(ms[1..], args) && InOrder(ms[1..], ms[0].end, |element|) && ms[0].name in args
    ensures Spliced(element, ms, cursor, args) == args[ms[0].name] + Spliced(element, ms[1..], ms[0].end, args)
  {
    InOrderIsBounded(ms, cursor, |element|);
    assert element[cursor..cursor] == "";
  }

  lemma ValueRenders(s: string, n: nat, args: map<string, string>)
    requires PlaceholderLength(s) == Some(n) && Resolves(Pieces(s), args)
    ensures s[1..n - 1] in args && Resolves(Pieces(s[n..]), args)
    ensures Rendered(Pieces(s), args) == args[s[1..n - 1]] + Rendered(Pieces(s[n..]), args)
  {
    var ps := Pieces(s);
    ResolvesCons(ps, args);
    assert ps[0] == Ref(s[1..n - 1]) && ps[1..] == Pieces(s[n..]);
  }

  lemma TextRenders(s: string, args: map<string, string>)
    requires s != "" && PlaceholderLength(s).None? && Resolves(Pieces(s), args)
    ensures Resolves(Pieces(s[1..]), args) && Rendered(Pieces(s), args) == [s[0]] + Rendered(Pieces(s[1..]), args)
  {
    var ps := Pieces(s);
    ResolvesCons(ps, args);
    assert ps[0] == Text(s[0]) && ps[1..] == Pieces(s[1..]);
  }

  lemma FirstMatchIs(s: string, at: nat, n: nat, ms: seq<Match>)
    requires PlaceholderLength(s) == Some(n) && ms == Matches(s, at)
    ensures ms != [] && ms[0] == Match(at, at + n, s[1..n - 1]) && ms[1..] == Matches(s[n..], at + n)
  {
  }

  /** The pass writes what the pieces render as. */
  lemma {:induction false} SplicedIsRendered(
    element: string, s: string, at: nat, ms: seq<Match>, args: map<string, string>)
    requires at <= |element| && s == element[at..] && Resolves(Pieces(s), args)
    requires ms == Matches(s, at) && AllNamed(ms, args) && InOrder(ms, at, |element|)
    ensures Spliced(element, ms, at, args) == Rendered(Pieces(s), args)
    decreases s, 1
  {
    if s != "" {
      match PlaceholderLength(s)
      case Some(n) => SplicedFromValue(element, s, at, n, ms, args);
      case None => SplicedFromText(element, s, at, ms, args);
    }
  }

  lemma RestMatches(element: string, s: string, at: nat, n: nat, ms: seq<Match>, args: map<string, string>)
    requires at <= |element| && s == element[at..] && PlaceholderLength(s) == Some(n)
    requires ms == Matches(s, at) && AllNamed(ms, args) && InOrder(ms, at, |element|)
    ensures at + n <= |element| && s[n..] == element[at + n..] && ms != [] && ms[0].name == s[1..n - 1]
    ensures ms[1..] == Matches(s[n..], at + n) && InOrder(ms[1..], at + n, |element|)
    ensures ms[0].name in args && AllNamed(ms[1..], args)
    ensures Spliced(element, ms, at, args) == args[ms[0].name] + Spliced(element, ms[1..], at + n, args)
  {
    FirstMatchIs(s, at, n, ms);
    SplicedValue(element, ms, at, args);
  }

  lemma {:induction false} SplicedFromValue(
    element: string, s: string, at: nat, n: nat, ms: seq<Match>, args: map<string, string>)
    requires at <= |element| && s == element[at..] && PlaceholderLength(s) == Some(n) && Resolves(Pieces(s), args)
    requires ms == Matches(s, at) && AllNamed(ms, args) && InOrder(ms, at, |element|)
    ensures Spliced(element, ms, at, args) == Rendered(Pieces(s), args)
    decreases s, 0
  {
    ValueRenders(s, n, args);
    RestMatches(element, s, at, n, ms, args);
    SplicedIsRendered(element, s[n..], at + n, ms[1..], args);
  }

  lemma {:induction false} SplicedFromText(
    element: string, s: string, at: nat, ms: seq<Match>, args: map<string, string>)
    requires at <= |element| && s == element[at..] && Resolves(Pieces(s), args)
    requires s != "" && PlaceholderLength(s).None?
    requires ms == Matches(s, at) && AllNamed(ms, args) && InOrder(ms, at, |element|)
    ensures Spliced(element, ms, at, args) == Rendered(Pieces(s), args)
    decreases s, 0
  {
    var rest := s[1..];
    TextRenders(s, args);
    assert rest == element[at + 1..] && ms == Matches(rest, at + 1);
    MatchesInOrder(rest, at + 1);
    SplicedText(element, ms, at, args);
    SplicedIsRendered(element, rest, at + 1, ms, args);
  }

  lemma SplicedNext(element: string, ms: seq<Match>, cursor: nat, args: map<string, string>)
    requires ms != [] && AllNamed(ms, args) && InOrder(ms, cursor, |element|)
    ensures AllNamed(ms[1..], args) && InOrder(ms[1..], ms[0].end, |element|) && ms[0].name in args
    ensures cursor <= ms[0].index <= ms[0].end <= |element|
    ensures Spliced(element, ms, cursor, args)
         == element[cursor..ms[0].index] + args[ms[0].name] + Spliced(element, ms[1..], ms[0].end, args)
  {
    InOrderIsBounded(ms, cursor, |element|);
  }

  /** The one pass of `replace`. */
  method Replace(element: string, args: map<string, string>) returns (token: string)
    requires Resolves(Pieces(element), args)
    ensures token == Rendered(Pieces(element), args)
  {
    MatchesAreRefs(element, 0, args);
    MatchesInOrder(element, 0);
    var matches := Matches(element, 0);
    SplicedIsRendered(element, element, 0, matches, args);
    var cursor: nat := 0;
    token := "";
    ghost var todo, goal := matches, Rendered(Pieces(element), args);
    for k := 0 to |matches|
      invariant todo == matches[k..] && AllNamed(todo, args) && InOrder(todo, cursor, |element|)
      invariant token + Spliced(element, todo, cursor, args) == goal
    {
      SplicedNext(element, todo, cursor, args);
      assert todo[0] == matches[k] && todo[1..] == matches[k + 1..];
      todo := matches[k + 1..];
      token := token + element[cursor..matches[k].index] + args[matches[k].name];
      cursor := matches[k].end;
    }
    InOrderIsBounded([], cursor, |element|);
    token := token + element[cursor..];
  }

  /** One element: None when a reference has no value. */
  method RenderElement(element: string, args: map<string, string>) returns (token: Option<string>)
    ensures token == if Resolves(Pieces(element), args) then Some(Rendered(Pieces(element), args)) else None
  {
    var refs := Matches(element, 0);
    MatchesAreRefs(element, 0, args);
    for k := 0 to |refs|
      invariant forall j :: 0 <= j < k ==> refs[j].name in args
    {
      if refs[k].name !in args {
        return None;
      }
    }
    var replaced := Replace(element, args);
    token := Some(replaced);
  }

  method RenderArgv(template: seq<string>, args: map<string, string>) returns (tokens: seq<string>)
    ensures tokens == RenderedArgv(template, args)
  {
    tokens := [];
    for k := 0 to |template|
      invariant tokens == RenderedArgv(template[..k], args)
    {
      assert template[..k + 1][..k] == template[..k];
      var token := RenderElement(template[k], args);
      if token.Some? {
        tokens := tokens + [token.value];
      }
    }
    assert template[..|template|] == template;
  }
}
