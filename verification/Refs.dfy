/** `$NAME` references in templates: one way to split a template, and the loops that walk it. */
module Refs {
  import opened Plans

  /** A name's value put in, or the first name that has none. */
  datatype Filled = Ok(text: string) | Undeclared(name: string)

  /** A `$`, the identifier after it (empty for a literal `$`), and the text up to the next `$`. */
  datatype Piece = Piece(name: string, text: string)

  predicate IsIdent(c: char) {
    c == '_' || 'A' <= c <= 'Z' || 'a' <= c <= 'z' || '0' <= c <= '9'
  }

  // ----- the split

  /** The position of the first `$`, or the length. */
  function FirstDollar(s: string): (i: nat)
    ensures i <= |s| && (i < |s| ==> s[i] == '$') && forall k :: 0 <= k < i ==> s[k] != '$'
  {
    if s == [] || s[0] == '$' then 0 else FirstDollar(s[1..]) + 1
  }

  /** The length of the longest identifier that `s` starts with. */
  function IdentLength(s: string): (j: nat)
    ensures j <= |s| && (j < |s| ==> !IsIdent(s[j])) && forall k :: 0 <= k < j ==> IsIdent(s[k])
  {
    if s == [] || !IsIdent(s[0]) then 0 else IdentLength(s[1..]) + 1
  }

  function Head(s: string): string {
    s[..FirstDollar(s)]
  }

  /** What follows the first `$` and its identifier. */
  function Tail(s: string): string
    requires FirstDollar(s) < |s|
  {
    var after := s[FirstDollar(s) + 1..];
    after[IdentLength(after)..]
  }

  function NameOf(s: string): string
    requires FirstDollar(s) < |s|
  {
    var after := s[FirstDollar(s) + 1..];
    after[..IdentLength(after)]
  }

  function Pieces(s: string): seq<Piece>
    decreases |s|
  {
    if FirstDollar(s) == |s| then [] else [Piece(NameOf(s), Head(Tail(s)))] + Pieces(Tail(s))
  }

  function Joined(pieces: seq<Piece>): string {
    if pieces == [] then "" else "$" + pieces[0].name + pieces[0].text + Joined(pieces[1..])
  }

  lemma PiecesStep(s: string)
    ensures FirstDollar(s) == |s| ==> Pieces(s) == [] && Head(s) == s
    ensures FirstDollar(s) < |s| ==>
              |Pieces(s)| > 0 && Pieces(s)[0] == Piece(NameOf(s), Head(Tail(s))) && Pieces(s)[1..] == Pieces(Tail(s))
  {
    if FirstDollar(s) < |s| {
      FirstOf(Piece(NameOf(s), Head(Tail(s))), Pieces(Tail(s)));
    }
  }

  lemma FirstOf<T>(x: T, rest: seq<T>)
    ensures ([x] + rest)[0] == x && ([x] + rest)[1..] == rest
  {
  }

  lemma CutAtDollar(s: string)
    requires FirstDollar(s) < |s|
    ensures s == Head(s) + "$" + NameOf(s) + Tail(s) && |Tail(s)| < |s|
  {
    CutIs(s);
    var i := FirstDollar(s);
    var j := IdentLength(s[i + 1..]);
    hide FirstDollar, IdentLength, Head, NameOf, Tail;
    Cut(s, i, j);
  }

  lemma Cut(s: string, i: nat, j: nat)
    requires i < |s| && s[i] == '$' && j <= |s| - i - 1
    ensures s == s[..i] + "$" + s[i + 1..][..j] + s[i + 1..][j..]
  {
    assert s[i + 1..] == s[i + 1..][..j] + s[i + 1..][j..];
    assert s[..i] + "$" == s[..i + 1];
    assert s == s[..i + 1] + s[i + 1..];
  }

  /** Putting the pieces back gives the template. */
  lemma {:induction false} JoinsBack(s: string)
    ensures Head(s) + Joined(Pieces(s)) == s
    decreases |s|
  {
    PiecesStep(s);
    if FirstDollar(s) == |s| {
      assert s + "" == s;
    } else {
      CutAtDollar(s);
      JoinsBack(Tail(s));
      Regroup(Head(s), NameOf(s), Head(Tail(s)), Joined(Pieces(Tail(s))));
      hide Head, Tail, NameOf, Pieces, FirstDollar;
    }
  }

  lemma Regroup(h: string, n: string, t: string, rest: string)
    ensures h + ("$" + n + t + rest) == h + "$" + n + (t + rest)
  {
    assert h + ("$" + n + t + rest) == (h + ("$" + n)) + (t + rest);
    assert h + ("$" + n) == h + "$" + n;
  }

  /** A text has no `$`, a name is all identifier characters, and no identifier goes on into the text after it. */
  predicate PieceOk(p: Piece) {
    && (forall k :: 0 <= k < |p.name| ==> IsIdent(p.name[k]))
    && NoDollar(p.text)
    && (p.text == "" || !IsIdent(p.text[0]))
  }

  predicate NoDollar(s: string) {
    forall k :: 0 <= k < |s| ==> s[k] != '$'
  }

  predicate PiecesOk(pieces: seq<Piece>) {
    forall k :: 0 <= k < |pieces| ==> PieceOk(pieces[k])
  }

  lemma {:induction false} SplitIsOk(s: string)
    ensures NoDollar(Head(s)) && PiecesOk(Pieces(s))
    decreases |s|
  {
    if FirstDollar(s) < |s| {
      SplitIsOk(Tail(s));
      var tail := Tail(s);
      assert tail != "" ==> tail[0] == s[FirstDollar(s) + 1..][IdentLength(s[FirstDollar(s) + 1..])];
    }
  }

  /** There is one way to split a template. */
  lemma {:induction false} SplitIsUnique(s: string, head: string, pieces: seq<Piece>)
    requires NoDollar(head) && PiecesOk(pieces) && s == head + Joined(pieces)
    ensures head == Head(s) && pieces == Pieces(s)
    decreases |pieces|
  {
    if pieces == [] {
      assert s == head;
      WholeText(s);
    } else {
      var p := pieces[0];
      var rest := Joined(pieces[1..]);
      assert PieceOk(p);
      StartsLike(pieces[1..]);
      assert s == head + ("$" + p.name + p.text + rest);
      FirstPiece(s, head, p, rest);
      PiecesStep(s);
      hide Joined, Head, NameOf, Tail, Pieces, FirstDollar, PieceOk;
      SplitIsUnique(Tail(s), p.text, pieces[1..]);
    }
  }

  lemma WholeText(s: string)
    requires NoDollar(s)
    ensures FirstDollar(s) == |s| && Head(s) == s && Pieces(s) == []
  {
  }

  /** The first piece is where the template says it is. */
  lemma FirstPiece(s: string, head: string, p: Piece, rest: string)
    requires NoDollar(head) && PieceOk(p) && (rest == "" || rest[0] == '$')
    requires s == head + ("$" + p.name + p.text + rest)
    ensures FirstDollar(s) < |s| && Head(s) == head && NameOf(s) == p.name && Tail(s) == p.text + rest
  {
    hide FirstDollar, IdentLength;
    var follows := p.text + rest;
    Grouped(head, p, rest);
    CutHead(s, head, p.name + follows);
    var after := s[|head| + 1..];
    assert after[..|p.name|] == p.name && after[|p.name|..] == follows;
    IdentAt(after, |p.name|);
  }

  lemma Grouped(head: string, p: Piece, rest: string)
    ensures head + ("$" + p.name + p.text + rest) == head + ("$" + (p.name + (p.text + rest)))
  {
    assert "$" + p.name + p.text + rest == "$" + (p.name + (p.text + rest));
  }

  lemma CutHead(s: string, head: string, after: string)
    requires NoDollar(head) && s == head + ("$" + after)
    ensures FirstDollar(s) == |head| < |s| && s[..|head|] == head && s[|head| + 1..] == after
  {
    hide FirstDollar;
    assert s[|head|] == '$' && s[..|head|] == head;
    assert forall k :: 0 <= k < |head| ==> s[k] == head[k];
    FirstAt(s, |head|);
    DropFirst(head, after);
  }

  lemma DropFirst(head: string, rest: string)
    ensures (head + ("$" + rest))[|head| + 1..] == rest
  {
  }

  /** Joined pieces start with a `$`, if there are any. */
  lemma StartsLike(pieces: seq<Piece>)
    ensures Joined(pieces) == "" || Joined(pieces)[0] == '$'
  {
  }

  lemma {:induction false} FirstAt(s: string, i: nat)
    requires i < |s| && s[i] == '$' && forall k :: 0 <= k < i ==> s[k] != '$'
    ensures FirstDollar(s) == i
  {
  }

  lemma {:induction false} IdentAt(s: string, j: nat)
    requires j <= |s| && (j < |s| ==> !IsIdent(s[j])) && forall k :: 0 <= k < j ==> IsIdent(s[k])
    ensures IdentLength(s) == j
  {
  }

  // ----- references and values

  /** The references, in order. */
  function Names(pieces: seq<Piece>): seq<string> {
    if pieces == [] then []
    else (if pieces[0].name == "" then [] else [pieces[0].name]) + Names(pieces[1..])
  }

  predicate Missing(name: string, vals: map<string, string>) {
    name != "" && name !in vals
  }

  function ValueOf(name: string, vals: map<string, string>): string
    requires !Missing(name, vals)
  {
    if name == "" then "$" else vals[name]
  }

  /** The pieces with each reference replaced, token by token; inserted values are not looked at again. */
  function Render(pieces: seq<Piece>, vals: map<string, string>): Filled {
    if pieces == [] then Ok("")
    else if Missing(pieces[0].name, vals) then Undeclared(pieces[0].name)
    else After(ValueOf(pieces[0].name, vals) + pieces[0].text, Render(pieces[1..], vals))
  }

  function After(s: string, filled: Filled): Filled {
    match filled
    case Ok(text) => Ok(s + text)
    case Undeclared(_) => filled
  }

  function Rendered(s: string, vals: map<string, string>): Filled {
    After(Head(s), Render(Pieces(s), vals))
  }

  lemma NamesAt(pieces: seq<Piece>, k: nat)
    requires pieces != [] && k < |Names(pieces)|
    ensures pieces[0].name != "" && k == 0 ==> Names(pieces)[k] == pieces[0].name
    ensures pieces[0].name != "" && k > 0 ==> k - 1 < |Names(pieces[1..])| && Names(pieces)[k] == Names(pieces[1..])[k - 1]
    ensures pieces[0].name == "" ==> k < |Names(pieces[1..])| && Names(pieces)[k] == Names(pieces[1..])[k]
  {
  }

  /** Rendering succeeds only with a value for every reference. */
  lemma {:induction false} RenderedHasValues(pieces: seq<Piece>, vals: map<string, string>, k: nat)
    requires Render(pieces, vals).Ok? && k < |Names(pieces)|
    ensures Names(pieces)[k] in vals
  {
    NamesAt(pieces, k);
    if pieces[0].name == "" {
      RenderedHasValues(pieces[1..], vals, k);
    } else if k > 0 {
      RenderedHasValues(pieces[1..], vals, k - 1);
    }
  }

  /** Failing names the first reference without a value. */
  lemma {:induction false} FailsAtFirst(pieces: seq<Piece>, vals: map<string, string>) returns (k: nat)
    requires Render(pieces, vals).Undeclared?
    ensures k < |Names(pieces)| && Names(pieces)[k] == Render(pieces, vals).name && Names(pieces)[k] !in vals
    ensures forall l :: 0 <= l < k ==> Names(pieces)[l] in vals
  {
    if Missing(pieces[0].name, vals) {
      k := 0;
    } else {
      var at := FailsAtFirst(pieces[1..], vals);
      k := if pieces[0].name == "" then at else at + 1;
    }
  }

  /** Rendering fails exactly when some reference has no value, and names the first such one. */
  lemma RenderFails(pieces: seq<Piece>, vals: map<string, string>)
    ensures Render(pieces, vals).Undeclared? <==> exists k: nat :: k < |Names(pieces)| && Names(pieces)[k] !in vals
    ensures Render(pieces, vals).Undeclared? ==>
              exists k: nat :: k < |Names(pieces)| && Names(pieces)[k] == Render(pieces, vals).name && Names(pieces)[k] !in vals
                && forall l :: 0 <= l < k ==> Names(pieces)[l] in vals
  {
    if Render(pieces, vals).Undeclared? {
      var k := FailsAtFirst(pieces, vals);
    } else {
      forall k: nat | k < |Names(pieces)|
        ensures Names(pieces)[k] in vals
      {
        RenderedHasValues(pieces, vals, k);
      }
    }
  }

  /** Giving every reference itself back gives the template back. */
  lemma {:induction false} RenderItself(pieces: seq<Piece>, vals: map<string, string>)
    requires forall k :: 0 <= k < |Names(pieces)| ==> Names(pieces)[k] in vals && vals[Names(pieces)[k]] == "$" + Names(pieces)[k]
    ensures Render(pieces, vals) == Ok(Joined(pieces))
  {
    if pieces != [] {
      var all, rest := Names(pieces), Names(pieces[1..]);
      forall k | 0 <= k < |rest|
        ensures rest[k] in vals && vals[rest[k]] == "$" + rest[k]
      {
        assert rest[k] == all[if pieces[0].name == "" then k else k + 1];
      }
      RenderItself(pieces[1..], vals);
      assert pieces[0].name != "" ==> all[0] == pieces[0].name;
    }
  }

  /** Substituting fails exactly when the walk over the references reports a name without a value. */
  lemma FailsWhenReported(template: string, vals: map<string, string>)
    ensures Rendered(template, vals).Undeclared? <==> exists name :: name in Names(Pieces(template)) && name !in vals
    ensures Rendered(template, vals).Undeclared? ==> Rendered(template, vals).name in Names(Pieces(template))
  {
    var pieces := Pieces(template);
    RenderFails(pieces, vals);
    if name :| name in Names(pieces) && name !in vals {
      var k: nat :| k < |Names(pieces)| && Names(pieces)[k] == name;
    }
    hide Names, Pieces, Render, Head;
  }

  /** Substituting every reference by itself gives the template back. */
  lemma SubstituteItself(template: string, vals: map<string, string>)
    requires forall name :: name in Names(Pieces(template)) ==> name in vals && vals[name] == "$" + name
    ensures Rendered(template, vals) == Ok(template)
  {
    JoinsBack(template);
    RenderItself(Pieces(template), vals);
  }

  // ----- the loops

  method IndexOfDollar(s: string) returns (i: nat)
    ensures i == FirstDollar(s)
  {
    i := 0;
    while i < |s| && s[i] != '$'
      invariant 0 <= i <= |s| && forall k :: 0 <= k < i ==> s[k] != '$'
    {
      i := i + 1;
    }
  }

  method ScanIdent(s: string) returns (j: nat)
    ensures j == IdentLength(s)
  {
    j := 0;
    while j < |s| && IsIdent(s[j])
      invariant 0 <= j <= |s| && forall k :: 0 <= k < j ==> IsIdent(s[k])
    {
      j := j + 1;
    }
    IdentAt(s, j);
  }

  /** Walk a template and collect its references in order. */
  method EachRef(template: string) returns (names: seq<string>)
    ensures names == Names(Pieces(template))
  {
    hide Names, Pieces, Head, Tail, NameOf, FirstDollar, IdentLength;
    names := [];
    var rest := template;
    while true
      invariant Names(Pieces(template)) == names + Names(Pieces(rest))
      decreases |rest|
    {
      var idx := IndexOfDollar(rest);
      if idx == |rest| {
        NoNames(rest);
        return;
      }
      NamesStep(rest);
      CutAtDollar(rest);
      var after := rest[idx + 1..];
      var j := ScanIdent(after);
      CutIs(rest);
      if j == 0 {
        rest := after;
        continue;
      }
      names := names + [after[..j]];
      rest := after[j..];
    }
  }

  /** Replace every reference by its value; a literal `$` stays, and a name without a value is an error. */
  method Substitute(template: string, vals: map<string, string>) returns (filled: Filled)
    ensures filled == Rendered(template, vals)
  {
    hide Rendered, Pieces, Head, Tail, NameOf, FirstDollar, IdentLength, Render;
    NothingBefore(Rendered(template, vals));
    var sb := "";
    var rest := template;
    while true
      invariant Rendered(template, vals) == After(sb, Rendered(rest, vals))
      decreases |rest|
    {
      var idx := IndexOfDollar(rest);
      if idx == |rest| {
        NothingToFill(rest, vals);
        return Ok(sb + rest);
      }
      RenderStep(rest, vals);
      CutAtDollar(rest);
      CutIs(rest);
      AfterAfter(sb, Head(rest) + (if Missing(NameOf(rest), vals) then "" else ValueOf(NameOf(rest), vals)), Rendered(Tail(rest), vals));
      var text := sb + rest[..idx];
      assert text + "$" == sb + (rest[..idx] + "$");
      var after := rest[idx + 1..];
      var j := ScanIdent(after);
      if j == 0 {
        sb := text + "$";
        rest := after;
        continue;
      }
      var name := after[..j];
      if name !in vals {
        return Undeclared(name);
      }
      assert text + vals[name] == sb + (rest[..idx] + vals[name]);
      sb := text + vals[name];
      rest := after[j..];
    }
  }

  /** The first piece of a template is rendered, then what follows it. */
  lemma RenderStep(s: string, vals: map<string, string>)
    requires FirstDollar(s) < |s|
    ensures Rendered(s, vals) ==
            if Missing(NameOf(s), vals) then Undeclared(NameOf(s))
            else After(Head(s) + ValueOf(NameOf(s), vals), Rendered(Tail(s), vals))
  {
    PiecesStep(s);
    hide Pieces, Head, Tail, NameOf, FirstDollar, IdentLength;
    if !Missing(NameOf(s), vals) {
      AfterAfter(Head(s), ValueOf(NameOf(s), vals) + Head(Tail(s)), Render(Pieces(Tail(s)), vals));
      AfterAfter(Head(s) + ValueOf(NameOf(s), vals), Head(Tail(s)), Render(Pieces(Tail(s)), vals));
      assert Head(s) + (ValueOf(NameOf(s), vals) + Head(Tail(s))) == Head(s) + ValueOf(NameOf(s), vals) + Head(Tail(s));
    }
  }

  lemma NothingBefore(filled: Filled)
    ensures After("", filled) == filled
  {
    match filled
    case Ok(text) => assert "" + text == text;
    case Undeclared(_) =>
  }

  lemma NothingToFill(s: string, vals: map<string, string>)
    requires FirstDollar(s) == |s|
    ensures Rendered(s, vals) == Ok(s)
  {
    PiecesStep(s);
    assert s + "" == s;
  }

  lemma NoNames(s: string)
    requires FirstDollar(s) == |s|
    ensures Names(Pieces(s)) == []
  {
    PiecesStep(s);
  }

  lemma NamesStep(s: string)
    requires FirstDollar(s) < |s|
    ensures Names(Pieces(s)) == (if NameOf(s) == "" then [] else [NameOf(s)]) + Names(Pieces(Tail(s)))
  {
    PiecesStep(s);
    hide Pieces, Head, Tail, NameOf, FirstDollar, IdentLength;
  }

  /** The parts of a template at its first `$`, by position. */
  lemma CutIs(s: string)
    requires FirstDollar(s) < |s|
    ensures var i := FirstDollar(s); var after := s[i + 1..]; var j := IdentLength(after);
            Head(s) == s[..i] && NameOf(s) == after[..j] && Tail(s) == after[j..] && (j == 0 ==> NameOf(s) == "" && Tail(s) == after)
  {
    hide FirstDollar, IdentLength;
  }

  lemma AfterAfter(a: string, b: string, filled: Filled)
    ensures After(a, After(b, filled)) == After(a + b, filled)
  {
  }

  // ----- the distinct references of several templates

  /** The names of all templates, one after the other. */
  function AllNames(templates: seq<string>): seq<string> {
    if templates == [] then []
    else AllNames(templates[..|templates| - 1]) + Names(Pieces(templates[|templates| - 1]))
  }

  /** Each name once, where it first appears. */
  function FirstSeen(names: seq<string>): (r: seq<string>)
    ensures forall x :: x in r <==> x in names
    ensures Distinct(r)
  {
    if names == [] then []
    else
      var rest, last := names[..|names| - 1], names[|names| - 1];
      assert names == rest + [last];
      if last in rest then FirstSeen(rest) else FirstSeen(rest) + [last]
  }

  lemma FirstSeenNext(names: seq<string>, x: string)
    ensures FirstSeen(names + [x]) == if x in names then FirstSeen(names) else FirstSeen(names) + [x]
  {
    assert (names + [x])[..|names|] == names;
  }

  /** Add the names not listed yet. */
  method AddUnseen(out: seq<string>, ghost before: seq<string>, names: seq<string>) returns (more: seq<string>)
    requires out == FirstSeen(before)
    ensures more == FirstSeen(before + names)
  {
    hide FirstSeen;
    more := out;
    var k := 0;
    assert before + names[..0] == before;
    while k < |names|
      invariant 0 <= k <= |names| && more == FirstSeen(before + names[..k])
    {
      FirstSeenNext(before + names[..k], names[k]);
      assert before + names[..k + 1] == before + names[..k] + [names[k]];
      if names[k] !in more {
        more := more + [names[k]];
      }
      k := k + 1;
    }
    assert names[..k] == names;
  }

  lemma AllNamesNext(templates: seq<string>, i: nat)
    requires i < |templates|
    ensures AllNames(templates[..i + 1]) == AllNames(templates[..i]) + Names(Pieces(templates[i]))
  {
    hide Names, Pieces;
    assert templates[..i + 1][..i] == templates[..i];
  }

  /** The distinct references across the templates, in the order they first appear. */
  method ReferencedSecrets(templates: seq<string>) returns (out: seq<string>)
    ensures out == FirstSeen(AllNames(templates))
  {
    out := [];
    var i := 0;
    assert templates[..0] == [];
    while i < |templates|
      invariant 0 <= i <= |templates| && out == FirstSeen(AllNames(templates[..i]))
    {
      hide AllNames, FirstSeen, Names, Pieces;
      var names := EachRef(templates[i]);
      AllNamesNext(templates, i);
      out := AddUnseen(out, AllNames(templates[..i]), names);
      i := i + 1;
    }
    assert templates[..i] == templates;
  }

  // ----- the order of the templates

  /** What is reported for templates walked in this order. */
  function Report(templates: seq<string>): seq<string> {
    FirstSeen(AllNames(templates))
  }

  function Own(template: string): seq<string> {
    FirstSeen(Names(Pieces(template)))
  }

  /** The elements of `s` that are not in `t`, in order. */
  function Fresh(s: seq<string>, t: seq<string>): seq<string> {
    if s == [] then []
    else Fresh(s[..|s| - 1], t) + (if s[|s| - 1] in t then [] else [s[|s| - 1]])
  }

  lemma {:induction false} FreshNext(s: seq<string>, x: string, t: seq<string>)
    ensures Fresh(s + [x], t) == Fresh(s, t) + (if x in t then [] else [x])
  {
    assert (s + [x])[..|s|] == s;
  }

  /** Names of a later walk are added where they are new. */
  lemma {:induction false} SeenOfBoth(a: seq<string>, b: seq<string>)
    ensures FirstSeen(a + b) == FirstSeen(a) + Fresh(FirstSeen(b), a)
  {
    if b == [] {
      assert a + b == a;
    } else {
      var rest, x := b[..|b| - 1], b[|b| - 1];
      assert b == rest + [x] && a + b == (a + rest) + [x];
      SeenOfBoth(a, rest);
      hide FirstSeen, Fresh;
      OneSeen(a, rest, x);
    }
  }

  lemma OneSeen(a: seq<string>, rest: seq<string>, x: string)
    requires FirstSeen(a + rest) == FirstSeen(a) + Fresh(FirstSeen(rest), a)
    ensures FirstSeen((a + rest) + [x]) == FirstSeen(a) + Fresh(FirstSeen(rest + [x]), a)
  {
    FirstSeenNext(a + rest, x);
    FirstSeenNext(rest, x);
    FreshNext(FirstSeen(rest), x, a);
    hide FirstSeen, Fresh;
    assert x in a + rest <==> x in a || x in rest;
    if x !in a && x !in rest {
      assert (FirstSeen(a) + Fresh(FirstSeen(rest), a)) + [x] == FirstSeen(a) + (Fresh(FirstSeen(rest), a) + [x]);
    } else if x !in rest {
      assert Fresh(FirstSeen(rest), a) + [] == Fresh(FirstSeen(rest), a);
    }
  }

  lemma {:induction false} NothingFresh(s: seq<string>, t: seq<string>)
    requires forall x :: x in s ==> x in t
    ensures Fresh(s, t) == []
  {
    if s != [] {
      NothingFresh(s[..|s| - 1], t);
    }
  }

  /** Of a distinct extension, what is fresh is the extension. */
  lemma {:induction false} FreshRest(s: seq<string>, t: seq<string>, k: nat)
    requires k <= |s| && Distinct(s) && forall x :: x in t <==> x in s[..k]
    ensures Fresh(s, t) == s[k..]
    decreases |s|
  {
    if k == |s| {
      assert s[..k] == s;
      NothingFresh(s, t);
    } else {
      var n := |s| - 1;
      assert s[..n][..k] == s[..k];
      FreshRest(s[..n], t, k);
      assert s[n] !in s[..k];
      assert s[k..] == s[..n][k..] + [s[n]];
    }
  }

  predicate Comparable(a: seq<string>, b: seq<string>) {
    a <= b || b <= a
  }

  /** Walking one more template gives the longer of two comparable lists. */
  lemma OneMore(names: seq<string>, more: seq<string>)
    requires Comparable(FirstSeen(names), FirstSeen(more))
    ensures FirstSeen(names + more) == if FirstSeen(names) <= FirstSeen(more) then FirstSeen(more) else FirstSeen(names)
  {
    hide FirstSeen, Fresh;
    var l, t := FirstSeen(names), FirstSeen(more);
    SeenOfBoth(names, more);
    if l <= t {
      assert t[..|l|] == l;
      FreshRest(t, names, |l|);
      assert t == l + t[|l|..];
    } else {
      assert l[..|t|] == t;
      assert forall x :: x in t ==> x in l;
      NothingFresh(t, names);
    }
  }

  ghost predicate AllComparable(templates: seq<string>) {
    forall i, j :: 0 <= i < |templates| && 0 <= j < |templates| ==> Comparable(Own(templates[i]), Own(templates[j]))
  }

  /** With comparable lists, the report is the longest of them. */
  lemma {:induction false} Longest(templates: seq<string>) returns (k: nat)
    requires AllComparable(templates) && templates != []
    ensures k < |templates| && Report(templates) == Own(templates[k])
    ensures forall i :: 0 <= i < |templates| ==> Own(templates[i]) <= Report(templates)
  {
    hide FirstSeen, Names, Pieces;
    var n := |templates| - 1;
    var rest := templates[..n];
    if n == 0 {
      k := 0;
      assert AllNames(rest) == [];
      assert AllNames(templates) == Names(Pieces(templates[0]));
    } else {
      assert forall i :: 0 <= i < n ==> rest[i] == templates[i];
      k := Longest(rest);
      OneMore(AllNames(rest), Names(Pieces(templates[n])));
      if Report(rest) <= Own(templates[n]) {
        k := n;
      }
    }
  }

  lemma {:induction false} AllNamesFront(templates: seq<string>)
    requires templates != []
    ensures AllNames(templates) == Names(Pieces(templates[0])) + AllNames(templates[1..])
  {
    hide Names, Pieces;
    var n := |templates| - 1;
    if n == 0 {
      assert AllNames(templates[..0]) == [] && AllNames(templates[1..]) == [];
    } else {
      AllNamesFront(templates[..n]);
      assert templates[..n][1..] == templates[1..][..n - 1];
      assert templates[1..][n - 1] == templates[n];
    }
  }

  /** The template walked first has its list first. */
  lemma FirstIsPrefix(templates: seq<string>)
    requires templates != []
    ensures Own(templates[0]) <= Report(templates)
  {
    AllNamesFront(templates);
    hide FirstSeen, Names, Pieces, AllNames;
    SeenOfBoth(Names(Pieces(templates[0])), AllNames(templates[1..]));
  }

  /** The same templates, `templates[i]` walked first. */
  lemma InFront(templates: seq<string>, i: nat) returns (other: seq<string>)
    requires i < |templates|
    ensures multiset(other) == multiset(templates) && other != [] && other[0] == templates[i]
  {
    other := [templates[i]] + templates[..i] + templates[i + 1..];
    assert templates == templates[..i] + [templates[i]] + templates[i + 1..];
  }

  lemma SameElements(a: seq<string>, b: seq<string>, x: string)
    requires multiset(a) == multiset(b) && x in a
    ensures x in b
  {
    assert x in multiset(a);
  }

  /** Walked in any other order, comparable templates are reported alike. */
  lemma AnyOrder(templates: seq<string>, other: seq<string>)
    requires AllComparable(templates) && multiset(other) == multiset(templates)
    ensures Report(other) == Report(templates)
  {
    hide Report, Own;
    assert |multiset(other)| == |other| && |multiset(templates)| == |templates|;
    if templates != [] {
      assert AllComparable(other) by {
        forall i, j | 0 <= i < |other| && 0 <= j < |other|
          ensures Comparable(Own(other[i]), Own(other[j]))
        {
          SameElements(other, templates, other[i]);
          SameElements(other, templates, other[j]);
        }
      }
      var k := Longest(templates);
      var k' := Longest(other);
      SameElements(templates, other, templates[k]);
      SameElements(other, templates, other[k']);
    } else {
      assert other == templates;
    }
  }

  /**
   The original walks a map's values, in no fixed order. What is reported is the same in every order exactly
   when, of any two templates, one's references begin with the other's.
   */
  lemma OrderIsSeen(templates: seq<string>)
    ensures (forall other :: multiset(other) == multiset(templates) ==> Report(other) == Report(templates))
            <==> AllComparable(templates)
  {
    hide Report, Own;
    if AllComparable(templates) {
      forall other | multiset(other) == multiset(templates)
        ensures Report(other) == Report(templates)
      {
        AnyOrder(templates, other);
      }
    }
    if forall other :: multiset(other) == multiset(templates) ==> Report(other) == Report(templates) {
      forall i, j | 0 <= i < |templates| && 0 <= j < |templates|
        ensures Comparable(Own(templates[i]), Own(templates[j]))
      {
        var a := InFront(templates, i);
        var b := InFront(templates, j);
        FirstIsPrefix(a);
        FirstIsPrefix(b);
        var r := Report(templates);
        assert Own(templates[i]) <= r && Own(templates[j]) <= r;
      }
    }
  }

  /** Two templates with a reference each are reported in the order they are walked. */
  lemma OrderMatters()
    ensures Report(["$A", "$B"]) == ["A", "B"] && Report(["$B", "$A"]) == ["B", "A"]
  {
    hide AllNames, Names, Pieces, FirstSeen;
    assert "$" + "A" == "$A" && "$" + "B" == "$B";
    OneName("A");
    OneName("B");
    TwoTemplates("$A", "$B");
    TwoTemplates("$B", "$A");
    assert "A"[0] != "B"[0];
    TwoSeen("A", "B");
    TwoSeen("B", "A");
  }

  lemma TwoSeen(x: string, y: string)
    requires x != y
    ensures FirstSeen([x] + [y]) == [x, y]
  {
    FirstSeenNext([], x);
    FirstSeenNext([x], y);
    assert [] + [x] == [x];
  }

  lemma TwoTemplates(a: string, b: string)
    ensures AllNames([a, b]) == Names(Pieces(a)) + Names(Pieces(b))
  {
    hide Names, Pieces;
    assert [a, b][..1] == [a] && [a][..0] == [] && AllNames([]) == [];
    assert AllNames([a]) == Names(Pieces(a));
  }

  lemma OneName(name: string)
    requires name == "A" || name == "B"
    ensures Names(Pieces("$" + name)) == [name]
  {
    var s := "$" + name;
    assert s[1..] == name;
    assert FirstDollar(s) == 0;
    assert name[1..] == "" && IdentLength("") == 0 && IdentLength(name) == 1;
    CutIs(s);
    assert Tail(s) == "" && NameOf(s) == name;
    NamesStep(s);
    NoNames("");
  }
}
