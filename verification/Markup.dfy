/** XML texts as sequences of markup pieces, and searching them for markup. */
module Markup {
  import opened Text

  /** An element with the text after its start tag and the text after its end. A single element is one tag only. */
  datatype Element = Element(name: string, attrs: string, text: string, children: seq<Element>, tail: string,
                             single: bool := false)

  datatype Mark = Open(name: string, attrs: string) | Single(name: string, attrs: string) | Close(name: string)

  /** A tag and the text up to the next one. */
  datatype Piece = Piece(mark: Mark, text: string)

  /** What stands between the name of a tag and its end. */
  function Inside(m: Mark): string {
    match m
    case Open(_, attrs) => attrs
    case Single(_, attrs) => attrs + "/"
    case Close(_) => ""
  }

  function MarkText(m: Mark): (s: string)
    ensures |s| > 0 && s[0] == '<'
  {
    (if m.Close? then "</" else "<") + m.name + Inside(m) + ">"
  }

  function PieceText(p: Piece): string {
    MarkText(p.mark) + p.text
  }

  function Concat(ps: seq<Piece>): string {
    if ps == [] then "" else PieceText(ps[0]) + Concat(ps[1..])
  }

  function Flatten(e: Element): seq<Piece>
    decreases e, 0
  {
    if e.single then [Piece(Single(e.name, e.attrs), e.tail)]
    else [Piece(Open(e.name, e.attrs), e.text)] + FlattenAll(e.children) + [Piece(Close(e.name), e.tail)]
  }

  function FlattenAll(es: seq<Element>): seq<Piece>
    decreases es, 1
  {
    if es == [] then [] else Flatten(es[0]) + FlattenAll(es[1..])
  }

  // ---------------------------------------------------------------- clean pieces

  predicate NoMarkup(s: string) {
    '<' !in s
  }

  predicate NameChar(c: char) {
    c != '<' && c != '>' && c != ' ' && c != '/'
  }

  predicate IsName(s: string) {
    s != "" && forall i | 0 <= i < |s| :: NameChar(s[i])
  }

  /** A text in which every quotation is closed and '>' stands only in quotations. The quotation open before it, or a
      space. */
  predicate Quoted(s: string, open: char) {
    if s == "" then open == ' '
    else if open == ' ' then s[0] != '>' && Quoted(s[1..], if s[0] == '"' || s[0] == '\'' then s[0] else ' ')
    else Quoted(s[1..], if s[0] == open then ' ' else open)
  }

  predicate IsAttrs(s: string) {
    s == "" || (s[0] == ' ' && s[|s| - 1] != '/' && NoMarkup(s) && Quoted(s, ' '))
  }

  predicate CleanMark(m: Mark) {
    IsName(m.name) && (m.Close? || IsAttrs(m.attrs))
  }

  predicate CleanPiece(p: Piece) {
    CleanMark(p.mark) && NoMarkup(p.text)
  }

  predicate Clean(ps: seq<Piece>) {
    forall i | 0 <= i < |ps| :: CleanPiece(ps[i])
  }

  lemma ConcatStep(ps: seq<Piece>)
    requires ps != []
    ensures Concat(ps) == PieceText(ps[0]) + Concat(ps[1..])
  {
    hide PieceText;
  }

  lemma FlattenStep(es: seq<Element>)
    requires es != []
    ensures FlattenAll(es) == Flatten(es[0]) + FlattenAll(es[1..])
  {
    hide Flatten;
  }

  lemma NoPieces()
    ensures Concat([]) == ""
  {
  }

  lemma {:induction false} ConcatSplits(a: seq<Piece>, b: seq<Piece>)
    ensures Concat(a + b) == Concat(a) + Concat(b)
  {
    hide Concat, PieceText;
    if a == [] {
      NoPieces();
      assert a + b == b;
    } else {
      ConcatSplits(a[1..], b);
      assert (a + b)[1..] == a[1..] + b && (a + b)[0] == a[0];
      ConcatStep(a);
      ConcatStep(a + b);
      Associates(PieceText(a[0]), Concat(a[1..]), Concat(b));
    }
  }

  lemma Associates<T>(a: seq<T>, b: seq<T>, c: seq<T>)
    ensures a + (b + c) == a + b + c
  {
  }

  lemma {:induction false} FlattenSplits(a: seq<Element>, b: seq<Element>)
    ensures FlattenAll(a + b) == FlattenAll(a) + FlattenAll(b)
  {
    if a == [] {
      assert a + b == b;
    } else {
      hide Flatten, FlattenAll;
      FlattenSplits(a[1..], b);
      assert (a + b)[1..] == a[1..] + b && (a + b)[0] == a[0];
      FlattenStep(a);
      FlattenStep(a + b);
      Associates(Flatten(a[0]), FlattenAll(a[1..]), FlattenAll(b));
    }
  }

  lemma OneSharpInMark(m: Mark, i: nat)
    requires CleanMark(m) && 0 < i < |MarkText(m)|
    ensures MarkText(m)[i] != '<'
  {
    hide Quoted;
    var k := if m.Close? then 2 else 1;
    if k <= i < k + |m.name| {
      assert MarkText(m)[i] == m.name[i - k];
    } else if k + |m.name| <= i < k + |m.name| + |Inside(m)| {
      assert MarkText(m)[i] == Inside(m)[i - k - |m.name|];
    }
  }

  // ---------------------------------------------------------------- occurrences

  predicate OccursAt(s: string, w: string, i: nat) {
    i + |w| <= |s| && s[i..i + |w|] == w
  }

  /** A tag holds no other start of a tag, and neither does the text after it. */
  lemma OneSharpInPiece(p: Piece, i: nat)
    requires CleanPiece(p) && 0 < i < |PieceText(p)|
    ensures PieceText(p)[i] != '<'
  {
    if i < |MarkText(p.mark)| {
      OneSharpInMark(p.mark, i);
    } else {
      assert PieceText(p)[i] == p.text[i - |MarkText(p.mark)|];
    }
  }

  lemma OccursAfter(a: string, b: string, w: string, i: nat)
    requires i >= |a|
    ensures OccursAt(a + b, w, i) <==> OccursAt(b, w, i - |a|)
  {
    var s := a + b;
    if i + |w| <= |s| {
      assert s[i..i + |w|] == b[i - |a|..i - |a| + |w|];
    }
  }

  lemma OccursAtStart(s: string, w: string)
    ensures OccursAt(s, w, 0) <==> w <= s
  {
    if |w| <= |s| { assert s[0..0 + |w|] == s[..|w|]; }
  }

  /** A pattern that starts a tag occurs only where a piece starts. */
  lemma {:induction false} OccursAtAPiece(ps: seq<Piece>, w: string, i: nat) returns (j: nat)
    requires Clean(ps) && w != "" && w[0] == '<' && OccursAt(Concat(ps), w, i)
    ensures j < |ps| && i == |Concat(ps[..j])| && w <= Concat(ps[j..])
  {
    hide CleanPiece, PieceText, OccursAt, Concat;
    NonEmpty(ps, w, i);
    ConcatStep(ps);
    var p := PieceText(ps[0]);
    if i == 0 {
      j := 0;
      assert ps[0..] == ps && ps[..0] == [];
      NoPieces();
      OccursAtStart(Concat(ps), w);
    } else {
      NotInside(ps, w, i);
      OccursAfter(p, Concat(ps[1..]), w, i);
      j := OccursAtAPiece(ps[1..], w, i - |p|);
      var front := ps[..j + 1];
      assert front[0] == ps[0] && front[1..] == ps[1..][..j];
      ConcatStep(front);
      assert ps[1..][j..] == ps[j + 1..];
      j := j + 1;
    }
  }

  lemma NonEmpty(ps: seq<Piece>, w: string, i: nat)
    requires w != "" && OccursAt(Concat(ps), w, i)
    ensures ps != []
  {
  }

  lemma NotInside(ps: seq<Piece>, w: string, i: nat)
    requires Clean(ps) && ps != [] && w != "" && w[0] == '<' && OccursAt(Concat(ps), w, i) && i > 0
    ensures i >= |PieceText(ps[0])|
  {
    var s, p := Concat(ps), PieceText(ps[0]);
    assert s[i] == s[i..i + |w|][0] == '<';
    ConcatStep(ps);
    hide Concat, PieceText, CleanPiece;
    if i < |p| {
      assert s[i] == p[i];
      OneSharpInPiece(ps[0], i);
    }
  }

  lemma OccursAtPiece(ps: seq<Piece>, w: string, j: nat)
    requires j <= |ps| && w <= Concat(ps[j..])
    ensures OccursAt(Concat(ps), w, |Concat(ps[..j])|)
  {
    hide Concat, OccursAt;
    ConcatSplits(ps[..j], ps[j..]);
    assert ps[..j] + ps[j..] == ps;
    OccursAfter(Concat(ps[..j]), Concat(ps[j..]), w, |Concat(ps[..j])|);
    OccursAtStart(Concat(ps[j..]), w);
  }

  // ---------------------------------------------------------------- patterns

  /** What a piece starts with, and what follows it. */
  lemma FromPiece(ps: seq<Piece>, j: nat)
    requires j < |ps|
    ensures Concat(ps[j..]) == MarkText(ps[j].mark) + (ps[j].text + Concat(ps[j + 1..]))
    ensures j + 1 < |ps| ==> Concat(ps[j + 1..]) != "" && Concat(ps[j + 1..])[0] == '<'
    ensures j + 1 == |ps| ==> Concat(ps[j + 1..]) == ""
  {
    hide Concat;
    NoPieces();
    ConcatStep(ps[j..]);
    assert ps[j..][1..] == ps[j + 1..];
    if j + 1 < |ps| { ConcatStep(ps[j + 1..]); }
    Associates(MarkText(ps[j].mark), ps[j].text, Concat(ps[j + 1..]));
    assert j + 1 == |ps| ==> ps[j + 1..] == [];
  }

  /** The second character tells an end tag from a start tag. */
  lemma SecondCharacter(ps: seq<Piece>, j: nat)
    requires Clean(ps) && j < |ps|
    ensures |Concat(ps[j..])| > 1
    ensures Concat(ps[j..])[1] == (if ps[j].mark.Close? then '/' else ps[j].mark.name[0])
    ensures !ps[j].mark.Close? ==> ps[j].mark.name[0] != '/'
  {
    FromPiece(ps, j);
    hide Concat, Quoted;
    assert CleanPiece(ps[j]);
    assert ps[j].mark.name[0] in ps[j].mark.name;
  }

  /** One text is cut in one way only when neither part before the cut holds the character after the other cut. */
  lemma CutOnce(a: string, x: string, b: string, y: string)
    requires a + x == b + y && x != "" && y != "" && x[0] !in b && y[0] !in a
    ensures a == b && x == y
  {
    var left, right := a + x, b + y;
    assert forall i | 0 <= i < |a| :: left[i] == a[i] && a[i] in a;
    assert forall i | 0 <= i < |b| :: right[i] == b[i] && b[i] in b;
    assert left[|a|] == x[0] && right[|b|] == y[0];
    assert |a| == |b|;
    assert left[..|a|] == a && right[..|b|] == b && left[|a|..] == x && right[|b|..] == y;
  }

  lemma EndTags(m: string, x: string, n: string, y: string)
    requires IsName(m) && IsName(n) && MarkText(Close(m)) + x == MarkText(Close(n)) + y
    ensures m == n
  {
    EndTail(m, x);
    EndTail(n, y);
    hide MarkText;
    CutOnce(m, ">" + x, n, ">" + y);
  }

  lemma EndTail(m: string, x: string)
    ensures (MarkText(Close(m)) + x)[2..] == m + (">" + x)
  {
  }

  /** An end tag is found exactly at the pieces of that end tag. */
  lemma ClosePattern(ps: seq<Piece>, j: nat, name: string)
    requires Clean(ps) && IsName(name) && j < |ps|
    ensures MarkText(Close(name)) <= Concat(ps[j..]) <==> ps[j].mark == Close(name)
  {
    FromPiece(ps, j);
    SecondCharacter(ps, j);
    assert CleanPiece(ps[j]);
    var w, c, m := MarkText(Close(name)), Concat(ps[j..]), ps[j].mark;
    assert w[1] == '/';
    hide Concat, MarkText;
    if w <= c {
      assert c == w + c[|w|..] && c[1] == w[1];
      EndTags(m.name, ps[j].text + Concat(ps[j + 1..]), name, c[|w|..]);
    }
  }

  /** An element without children, as text. */
  function LeafText(name: string, attrs: string, text: string): string {
    MarkText(Open(name, attrs)) + (text + MarkText(Close(name)))
  }

  predicate LeafAt(ps: seq<Piece>, j: nat, name: string, attrs: string, text: string) {
    j + 1 < |ps| && ps[j] == Piece(Open(name, attrs), text) && ps[j + 1].mark == Close(name)
  }

  /** An element without children is found exactly where it stands. */
  lemma LeafPattern(ps: seq<Piece>, j: nat, name: string, attrs: string, text: string)
    requires Clean(ps) && j < |ps| && IsName(name) && IsAttrs(attrs) && NoMarkup(text)
    ensures LeafText(name, attrs, text) <= Concat(ps[j..]) <==> LeafAt(ps, j, name, attrs, text)
  {
    hide Concat, Quoted, IsAttrs, IsName;
    var w, c := LeafText(name, attrs, text), Concat(ps[j..]);
    FromPiece(ps, j);
    assert CleanPiece(ps[j]);
    if LeafAt(ps, j, name, attrs, text) {
      FromPiece(ps, j + 1);
      LeafIsPrefix(ps[j], Concat(ps[j + 1..]), name, attrs, text);
    }
    if w <= c { LeafEnds(ps, j, name, attrs, text, c[|w|..]); }
  }

  lemma LeafIsPrefix(p: Piece, rest: string, name: string, attrs: string, text: string)
    requires p == Piece(Open(name, attrs), text) && MarkText(Close(name)) <= rest
    ensures LeafText(name, attrs, text) <= MarkText(p.mark) + (p.text + rest)
  {
    hide MarkText;
    var more := rest[|MarkText(Close(name))|..];
    assert rest == MarkText(Close(name)) + more;
    assert MarkText(p.mark) + (p.text + rest) == LeafText(name, attrs, text) + more;
  }

  lemma LeafEnds(ps: seq<Piece>, j: nat, name: string, attrs: string, text: string, more: string)
    requires Clean(ps) && j < |ps| && IsName(name) && IsAttrs(attrs) && NoMarkup(text)
    requires Concat(ps[j..]) == LeafText(name, attrs, text) + more
    ensures LeafAt(ps, j, name, attrs, text)
  {
    hide Concat, MarkText, IsName, IsAttrs;
    FromPiece(ps, j);
    assert CleanPiece(ps[j]);
    var (p, rest, end) := (ps[j], Concat(ps[j + 1..]), MarkText(Close(name)) + more);
    assert LeafText(name, attrs, text) + more == MarkText(Open(name, attrs)) + (text + end);
    MarksAreRead(p.mark, p.text + rest, Open(name, attrs), text + end);
    TextsAreRead(p.text, rest, text, end);
    assert j + 1 < |ps|;
    assert MarkText(Close(name)) <= rest;
    ClosePattern(ps, j + 1, name);
  }

  // ---------------------------------------------------------------- reading tags

  /** A tag ends at one place only. */
  lemma {:induction false} TagEnds(a: string, x: string, b: string, y: string, open: char)
    requires Quoted(a, open) && Quoted(b, open) && a + (">" + x) == b + (">" + y)
    ensures a == b
  {
    var s := a + (">" + x);
    assert s[0] == (if a == "" then '>' else a[0]) == (if b == "" then '>' else b[0]);
    if a != "" && b != "" {
      assert a[1..] + (">" + x) == s[1..] == b[1..] + (">" + y);
      TagEnds(a[1..], x, b[1..], y,
              if open == ' ' then (if a[0] == '"' || a[0] == '\'' then a[0] else ' ')
              else if a[0] == open then ' ' else open);
    }
  }

  lemma {:induction false} QuotedGoesOn(a: string, b: string, open: char)
    requires Quoted(a, open) && Quoted(b, ' ')
    ensures Quoted(a + b, open)
  {
    if a == "" {
      assert a + b == b;
    } else {
      QuotedGoesOn(a[1..], b,
                   if open == ' ' then (if a[0] == '"' || a[0] == '\'' then a[0] else ' ')
                   else if a[0] == open then ' ' else open);
      assert (a + b)[1..] == a[1..] + b;
    }
  }

  predicate Unquoted(s: string) {
    '>' !in s && '"' !in s && '\'' !in s
  }

  lemma {:induction false} OutsideQuotations(s: string)
    requires Unquoted(s)
    ensures Quoted(s, ' ')
  {
    if s != "" {
      assert s[0] in s;
      OutsideQuotations(s[1..]);
    }
  }

  lemma {:induction false} InQuotation(s: string)
    requires '"' !in s
    ensures Quoted(s + "\"", '"')
  {
    if s == "" {
      assert s + "\"" == "\"" && Quoted("", ' ');
    } else {
      assert s[0] in s;
      InQuotation(s[1..]);
      assert (s + "\"")[1..] == s[1..] + "\"";
    }
  }

  /** One attribute in a tag. */
  function Attribute(name: string, value: string): string {
    " " + name + "=" + ("\"" + (value + "\""))
  }

  lemma AttributeIsAttrs(name: string, value: string)
    requires Unquoted(name) && NoMarkup(name) && NoMarkup(value) && '"' !in value
    ensures IsAttrs(Attribute(name, value))
  {
    var (front, back, s) := (" " + name + "=", "\"" + (value + "\""), Attribute(name, value));
    OutsideQuotations(front);
    InQuotation(value);
    assert back[1..] == value + "\"";
    QuotedGoesOn(front, back, ' ');
    hide Quoted;
    assert s[|s| - 1] == '"';
  }

  /** What stands inside a start tag. */
  predicate IsInside(s: string) {
    (s == "" || s[0] == ' ' || s[0] == '/') && Quoted(s, ' ')
  }

  lemma InsideIsInside(m: Mark)
    requires CleanMark(m)
    ensures IsInside(Inside(m))
  {
    assert Quoted("/", ' ');
    if m.Single? { QuotedGoesOn(m.attrs, "/", ' '); }
  }

  /** What follows the first character of a start tag. */
  lemma TagTail(m: Mark, x: string)
    requires !m.Close?
    ensures (MarkText(m) + x)[1..] == m.name + (Inside(m) + (">" + x))
  {
    hide Inside;
  }

  lemma StartTags(m: Mark, x: string, n: Mark, y: string)
    requires CleanMark(m) && CleanMark(n) && !m.Close? && !n.Close? && MarkText(m) + x == MarkText(n) + y
    ensures m == n
  {
    TagTail(m, x);
    TagTail(n, y);
    InsideIsInside(m);
    InsideIsInside(n);
    var a, b := Inside(m), Inside(n);
    NamesEnd(m.name, a, x, n.name, b, y);
    TagEnds(a, x, b, y, ' ');
    hide Quoted, MarkText;
    assert m.Single? ==> a[|a| - 1] == '/' && a[..|a| - 1] == m.attrs;
    assert n.Single? ==> b[|b| - 1] == '/' && b[..|b| - 1] == n.attrs;
  }

  lemma NamesEnd(m: string, a: string, x: string, n: string, b: string, y: string)
    requires IsName(m) && IsName(n) && IsInside(a) && IsInside(b)
    requires m + (a + (">" + x)) == n + (b + (">" + y))
    ensures m == n && a + (">" + x) == b + (">" + y)
  {
    hide Quoted;
    CutOnce(m, a + (">" + x), n, b + (">" + y));
  }

  /** Clean tags are told apart by their text, whatever follows. */
  lemma MarksAreRead(m: Mark, x: string, n: Mark, y: string)
    requires CleanMark(m) && CleanMark(n) && MarkText(m) + x == MarkText(n) + y
    ensures m == n && x == y
  {
    Second(m, x);
    Second(n, y);
    if m.Close? {
      hide MarkText;
      EndTags(m.name, x, n.name, y);
    } else {
      hide MarkText, CleanMark;
      StartTags(m, x, n, y);
    }
    hide MarkText;
    assert (MarkText(m) + x)[|MarkText(m)|..] == x && (MarkText(n) + y)[|MarkText(n)|..] == y;
  }

  lemma Second(m: Mark, x: string)
    requires CleanMark(m)
    ensures |MarkText(m) + x| > 1 && ((MarkText(m) + x)[1] == '/' <==> m.Close?)
  {
    hide Quoted, IsAttrs;
    assert m.name[0] in m.name;
  }

  lemma TextsAreRead(t: string, rest: string, text: string, end: string)
    requires NoMarkup(t) && NoMarkup(text) && t + rest == text + end
    requires (rest != "" ==> rest[0] == '<') && (end != "" ==> end[0] == '<')
    ensures t == text && rest == end
  {
    if rest == "" {
      assert t + rest == t;
      if end != "" { StartIsIn(t, text, end); }
      assert text + end == text;
    } else {
      if end == "" {
        assert text + end == text;
        StartIsIn(text, t, rest);
      }
      CutOnce(t, rest, text, end);
    }
  }

  lemma StartIsIn(s: string, t: string, rest: string)
    requires s == t + rest && rest != "" && rest[0] == '<'
    ensures '<' in s
  {
    assert s[|t|] == '<';
  }

  // ---------------------------------------------------------------- reading texts

  lemma ConcatStarts(ps: seq<Piece>)
    ensures Concat(ps) != "" ==> Concat(ps)[0] == '<'
    ensures Concat(ps) == "" <==> ps == []
  {
    hide MarkText;
  }

  /** Clean pieces are told by their text. */
  lemma {:induction false} PiecesAreRead(ps: seq<Piece>, qs: seq<Piece>)
    requires Clean(ps) && Clean(qs) && Concat(ps) == Concat(qs)
    ensures ps == qs
  {
    hide Concat, MarkText, CleanMark, NoMarkup;
    ConcatStarts(ps);
    ConcatStarts(qs);
    if ps != [] {
      var (p, q, x, y) := (ps[0], qs[0], Concat(ps[1..]), Concat(qs[1..]));
      assert CleanPiece(p) && CleanPiece(q);
      ConcatStep(ps);
      ConcatStep(qs);
      ConcatStarts(ps[1..]);
      ConcatStarts(qs[1..]);
      Associates(MarkText(p.mark), p.text, x);
      Associates(MarkText(q.mark), q.text, y);
      MarksAreRead(p.mark, p.text + x, q.mark, q.text + y);
      TextsAreRead(p.text, x, q.text, y);
      PiecesAreRead(ps[1..], qs[1..]);
      assert ps == [p] + ps[1..] && qs == [q] + qs[1..];
    }
  }

  // ---------------------------------------------------------------- reading trees

  /** Single elements hold nothing. */
  predicate Proper(es: seq<Element>) {
    es == [] || ((es[0].single ==> es[0].text == "" && es[0].children == []) && Proper(es[0].children)
                 && Proper(es[1..]))
  }

  predicate CleanTrees(es: seq<Element>) {
    Clean(FlattenAll(es)) && Proper(es)
  }

  predicate EndsHere(ps: seq<Piece>) {
    ps == [] || ps[0].mark.Close?
  }

  lemma FirstPieces(es: seq<Element>, x: seq<Piece>)
    ensures es != [] ==> FlattenAll(es) + x != [] && !(FlattenAll(es) + x)[0].mark.Close?
    ensures es == [] ==> FlattenAll(es) + x == x
  {
  }

  /** The pieces behind the first one of a list of elements. */
  lemma Behind(es: seq<Element>, x: seq<Piece>)
    requires es != []
    ensures var ps := FlattenAll(es) + x;
      ps != [] && ps[0] == (if es[0].single then Piece(Single(es[0].name, es[0].attrs), es[0].tail)
                            else Piece(Open(es[0].name, es[0].attrs), es[0].text))
    ensures var (e, ps, rest) := (es[0], FlattenAll(es) + x, FlattenAll(es[1..]) + x);
      ps[1..] == if e.single then rest else FlattenAll(e.children) + ([Piece(Close(e.name), e.tail)] + rest)
  {
    var (e, rest) := (es[0], FlattenAll(es[1..]));
    FlattenStep(es);
    hide FlattenAll;
    Associates(Flatten(e), rest, x);
    var end := [Piece(Close(e.name), e.tail)];
    if e.single {
      FirstOf(Piece(Single(e.name, e.attrs), e.tail), rest + x);
    } else {
      var (first, inner) := (Piece(Open(e.name, e.attrs), e.text), FlattenAll(e.children));
      Regrouped([first], inner, end, rest + x);
      FirstOf(first, inner + (end + (rest + x)));
    }
  }

  lemma FirstOf<T>(p: T, x: seq<T>)
    ensures ([p] + x)[0] == p && ([p] + x)[1..] == x
  {
  }

  lemma Regrouped<T>(a: seq<T>, b: seq<T>, c: seq<T>, d: seq<T>)
    ensures a + b + c + d == a + (b + (c + d))
  {
  }

  /** Elements are told by their pieces, whatever end follows. */
  lemma {:induction false} TreesAreRead(es: seq<Element>, x: seq<Piece>, fs: seq<Element>, y: seq<Piece>)
    requires Proper(es) && Proper(fs) && EndsHere(x) && EndsHere(y) && FlattenAll(es) + x == FlattenAll(fs) + y
    ensures es == fs && x == y
    decreases es
  {
    hide FlattenAll;
    FirstPieces(es, x);
    FirstPieces(fs, y);
    if es != [] {
      Behind(es, x);
      Behind(fs, y);
      var (e, f) := (es[0], fs[0]);
      if !e.single {
        var (u, v) := ([Piece(Close(e.name), e.tail)] + (FlattenAll(es[1..]) + x),
                       [Piece(Close(f.name), f.tail)] + (FlattenAll(fs[1..]) + y));
        TreesAreRead(e.children, u, f.children, v);
        assert u[0] == v[0] && u[1..] == FlattenAll(es[1..]) + x && v[1..] == FlattenAll(fs[1..]) + y;
      }
      TreesAreRead(es[1..], x, fs[1..], y);
      assert es == [e] + es[1..] && fs == [f] + fs[1..];
    }
  }
}
