/** Putting the signature and the QR code into an invoice (crypto/sign.go), and what hashing leaves of it
    (crypto/hash.go). Canonicalization is opaque and deterministic. */
module Signing {
  import opened Text
  import opened Markup

  const SIGNATURE_ID := "sbc:ReferencedSignatureID"
  const SIGNATURE_INFORMATION := "sac:SignatureInformation"
  const BINARY := "cbc:EmbeddedDocumentBinaryObject"
  const PLAIN := " mimeCode=\"text/plain\""
  const CBC_ID := "cbc:ID"

  // ---------------------------------------------------------------- searching texts

  /** The first occurrence from an index on, or -1. */
  function IndexFrom(s: string, w: string, i: nat): (r: int)
    requires i <= |s|
    ensures r >= 0 ==> i <= r <= |s| && OccursAt(s, w, r) && forall j | i <= j < r :: !OccursAt(s, w, j)
    ensures r < 0 ==> forall j: nat | i <= j :: !OccursAt(s, w, j)
    decreases |s| - i
  {
    if OccursAt(s, w, i) then i else if i == |s| then -1 else IndexFrom(s, w, i + 1)
  }

  /** strings.Index */
  function Index(s: string, w: string): int {
    IndexFrom(s, w, 0)
  }

  /** The last occurrence up to an index, or -1. */
  function LastIndexTo(s: string, w: string, i: nat): (r: int)
    ensures r >= 0 ==> r <= i && OccursAt(s, w, r) && forall j: nat | r < j <= i :: !OccursAt(s, w, j)
    ensures r < 0 ==> forall j: nat | j <= i :: !OccursAt(s, w, j)
  {
    if OccursAt(s, w, i) then i else if i == 0 then -1 else LastIndexTo(s, w, i - 1)
  }

  /** strings.LastIndex */
  function LastIndex(s: string, w: string): int {
    LastIndexTo(s, w, |s|)
  }

  /** strings.Replace with a count of one. */
  function ReplaceFirst(s: string, w: string, put: string): string {
    var i := Index(s, w);
    if i < 0 then s else s[..i] + put + s[i + |w|..]
  }

  // ---------------------------------------------------------------- injection

  const GAP := "\n                "

  /** The signature replaces what stands between the two markers. Without them the text stays as it is. */
  function InjectSignature(xml: string, signature: string): string {
    var marker, closing := MarkText(Close(SIGNATURE_ID)), MarkText(Close(SIGNATURE_INFORMATION));
    var at := Index(xml, marker);
    if at < 0 then xml
    else
      var insertPoint := at + |marker|;
      var end := Index(xml[insertPoint..], closing);
      if end < 0 then xml
      else xml[..insertPoint] + ("\n" + signature + GAP) + xml[insertPoint + end..]
  }

  /** The QR code replaces the first empty placeholder after the last QR id. */
  function InjectQR(xml: string, qr: string): string {
    var at := LastIndex(xml, LeafText(CBC_ID, "", "QR"));
    if at < 0 then xml
    else xml[..at] + ReplaceFirst(xml[at..], LeafText(BINARY, PLAIN, ""), LeafText(BINARY, PLAIN, qr))
  }

  // ---------------------------------------------------------------- searching pieces

  lemma {:induction false} OffsetsGrow(ps: seq<Piece>, i: nat, j: nat)
    requires i <= j <= |ps|
    ensures |Concat(ps[..i])| <= |Concat(ps[..j])|
    ensures i < j ==> |Concat(ps[..i])| < |Concat(ps[..j])|
  {
    hide Concat;
    assert ps[..j] == ps[..i] + ps[i..j];
    ConcatSplits(ps[..i], ps[i..j]);
    if i < j { ConcatStep(ps[i..j]); }
  }

  /** The first occurrence of a pattern is at the first piece that starts it. */
  lemma FirstPiece(ps: seq<Piece>, w: string, j: nat)
    requires Clean(ps) && w != "" && w[0] == '<' && j < |ps| && w <= Concat(ps[j..])
    requires forall i | 0 <= i < j :: !(w <= Concat(ps[i..]))
    ensures Index(Concat(ps), w) == |Concat(ps[..j])|
  {
    hide Concat, Clean, OccursAt;
    OccursAtPiece(ps, w, j);
    var s, at := Concat(ps), |Concat(ps[..j])|;
    var first := Index(s, w);
    if 0 <= first < at {
      var k := OccursAtAPiece(ps, w, first);
      OffsetsGrow(ps, j, if k < j then j else k);
    }
  }

  lemma NoPiece(ps: seq<Piece>, w: string)
    requires Clean(ps) && w != "" && w[0] == '<'
    requires forall i | 0 <= i < |ps| :: !(w <= Concat(ps[i..]))
    ensures Index(Concat(ps), w) < 0
  {
    hide Concat, Clean, OccursAt;
    if Index(Concat(ps), w) >= 0 {
      var k := OccursAtAPiece(ps, w, Index(Concat(ps), w));
    }
  }

  lemma LastPiece(ps: seq<Piece>, w: string, j: nat)
    requires Clean(ps) && w != "" && w[0] == '<' && j < |ps| && w <= Concat(ps[j..])
    requires forall i | j < i < |ps| :: !(w <= Concat(ps[i..]))
    ensures LastIndex(Concat(ps), w) == |Concat(ps[..j])|
  {
    hide Concat, Clean;
    OccursAtPiece(ps, w, j);
    var s, at := Concat(ps), |Concat(ps[..j])|;
    var last := LastIndex(s, w);
    if last > at {
      var k := OccursAtAPiece(ps, w, last);
      OffsetsGrow(ps, if k <= j then k else j, j);
    }
  }

  lemma LastAfter(x: string, s: string, w: string)
    requires LastIndex(s, w) >= 0
    ensures LastIndex(x + s, w) == |x| + LastIndex(s, w)
  {
    var at := |x| + LastIndex(s, w);
    OccursAfter(x, s, w, at);
    var last := LastIndex(x + s, w);
    if last > at { OccursAfter(x, s, w, last); }
  }

  lemma IndexAfterText(t: string, s: string, w: string)
    requires NoMarkup(t) && w != "" && w[0] == '<' && OccursAt(s, w, 0)
    ensures Index(t + s, w) == |t|
  {
    OccursAfter(t, s, w, |t|);
    forall i: nat | i < |t|
      ensures !OccursAt(t + s, w, i)
    {
      assert (t + s)[i] == t[i] && t[i] in t;
      if i + |w| <= |t + s| { assert (t + s)[i..i + |w|][0] == (t + s)[i]; }
    }
  }

  // ---------------------------------------------------------------- injection into pieces

  lemma MarkerIsFirst(front: seq<Piece>, p: Piece, rest: seq<Piece>)
    requires Clean(front + [p] + rest) && p.mark == Close(SIGNATURE_ID)
    requires forall i | 0 <= i < |front| :: front[i].mark != p.mark
    ensures Index(Concat(front + [p] + rest), MarkText(Close(SIGNATURE_ID))) == |Concat(front)|
  {
    hide Concat, Index, MarkText;
    var ps, k := front + [p] + rest, |front|;
    SignatureIdIsName();
    forall i | 0 <= i <= k
      ensures MarkText(p.mark) <= Concat(ps[i..]) <==> i == k
    {
      ClosePattern(ps, i, SIGNATURE_ID);
      assert i < k ==> ps[i] == front[i];
    }
    FirstPiece(ps, MarkText(p.mark), k);
    assert ps[..k] == front;
  }

  lemma ClosingFollows(t: string, rest: seq<Piece>)
    requires NoMarkup(t) && Clean(rest) && rest != [] && rest[0].mark == Close(SIGNATURE_INFORMATION)
    ensures Index(t + Concat(rest), MarkText(Close(SIGNATURE_INFORMATION))) == |t|
  {
    hide Concat, Index, MarkText, OccursAt;
    SignatureInformationIsName();
    ClosePattern(rest, 0, SIGNATURE_INFORMATION);
    assert rest[0..] == rest;
    OccursAtStart(Concat(rest), MarkText(Close(SIGNATURE_INFORMATION)));
    IndexAfterText(t, Concat(rest), MarkText(Close(SIGNATURE_INFORMATION)));
  }

  /** The signature goes between the end tag of its id and the next end tag, and nothing else changes. */
  lemma SignatureGoesIn(front: seq<Piece>, p: Piece, rest: seq<Piece>, signature: string)
    requires Clean(front + [p] + rest) && p.mark == Close(SIGNATURE_ID)
    requires forall i | 0 <= i < |front| :: front[i].mark != p.mark
    requires rest != [] && rest[0].mark == Close(SIGNATURE_INFORMATION)
    ensures InjectSignature(Concat(front + [p] + rest), signature)
         == Concat(front + [p.(text := "\n" + signature + GAP)] + rest)
  {
    hide Concat, Index, MarkText, Clean, InjectSignature, NoMarkup;
    MarkerIsFirst(front, p, rest);
    PartsAreClean(front, p, rest);
    ClosingFollows(p.text, rest);
    ThreeParts(front, p, rest);
    ThreeParts(front, p.(text := "\n" + signature + GAP), rest);
    Injects(Concat(front), p.text, Concat(rest), signature);
  }

  /** What InjectSignature does once the two markers are found. */
  lemma Injects(a: string, t: string, b: string, signature: string)
    requires Index(a + MarkText(Close(SIGNATURE_ID)) + t + b, MarkText(Close(SIGNATURE_ID))) == |a|
    requires Index(t + b, MarkText(Close(SIGNATURE_INFORMATION))) == |t|
    ensures InjectSignature(a + MarkText(Close(SIGNATURE_ID)) + t + b, signature)
         == a + MarkText(Close(SIGNATURE_ID)) + ("\n" + signature + GAP) + b
  {
    hide Index, MarkText;
    CutText(a, MarkText(Close(SIGNATURE_ID)), t, b);
  }

  lemma PartsAreClean(front: seq<Piece>, p: Piece, rest: seq<Piece>)
    requires Clean(front + [p] + rest)
    ensures NoMarkup(p.text) && Clean(rest)
  {
    var ps := front + [p] + rest;
    assert ps[|front|] == p;
    TextOf(ps[|front|]);
    hide CleanPiece;
    forall i | 0 <= i < |rest|
      ensures CleanPiece(rest[i])
    {
      assert ps[|front| + 1 + i] == rest[i];
    }
  }

  lemma TextOf(p: Piece)
    requires CleanPiece(p)
    ensures NoMarkup(p.text)
  {
  }

  lemma SignatureIdIsName()
    ensures IsName(SIGNATURE_ID)
  {
  }

  lemma SignatureInformationIsName()
    ensures IsName(SIGNATURE_INFORMATION)
  {
  }

  lemma BinaryIsName()
    ensures IsName(BINARY)
  {
  }

  lemma PlainIsAttrs()
    ensures IsAttrs(PLAIN)
  {
    assert PLAIN == Attribute("mimeCode", "text/plain");
    hide Attribute, IsAttrs;
    AttributeIsAttrs("mimeCode", "text/plain");
  }

  lemma IdIsName()
    ensures IsName(CBC_ID) && IsAttrs("") && NoMarkup("") && NoMarkup("QR")
  {
  }

  lemma ThreeParts(front: seq<Piece>, p: Piece, rest: seq<Piece>)
    ensures Concat(front + [p] + rest) == Concat(front) + MarkText(p.mark) + p.text + Concat(rest)
  {
    hide Concat, MarkText;
    ConcatSplits(front + [p], rest);
    ConcatSplits(front, [p]);
    ConcatStep([p]);
    assert [p][1..] == [];
    NoPieces();
  }

  lemma CutText(a: string, m: string, t: string, b: string)
    ensures var s := a + m + t + b;
      s[..|a| + |m|] == a + m && s[|a| + |m|..] == t + b && s[|a| + |m| + |t|..] == b
  {
  }

  lemma LastQrIdIsFound(x: string, g: seq<Piece>, last: nat)
    requires Clean(g) && LeafAt(g, last, CBC_ID, "", "QR")
    requires forall i | last < i < |g| :: !LeafAt(g, i, CBC_ID, "", "QR")
    ensures LastIndex(x + Concat(g), LeafText(CBC_ID, "", "QR")) == |x| + |Concat(g[..last])|
  {
    hide Concat, LastIndex, LeafText, LeafAt, Clean, IsName, IsAttrs, NoMarkup;
    var id := LeafText(CBC_ID, "", "QR");
    IdIsName();
    IsInRange(g, last, CBC_ID, "", "QR");
    forall i | 0 <= i < |g|
      ensures id <= Concat(g[i..]) <==> LeafAt(g, i, CBC_ID, "", "QR")
    {
      LeafPattern(g, i, CBC_ID, "", "QR");
    }
    LeafStartsTag(CBC_ID, "", "QR");
    LastPiece(g, id, last);
    LastAfter(x, Concat(g), id);
  }

  lemma IsInRange(ps: seq<Piece>, j: nat, name: string, attrs: string, text: string)
    requires LeafAt(ps, j, name, attrs, text)
    ensures j < |ps|
  {
  }

  /** The QR code goes into the first empty placeholder after the last QR id, if there is one. */
  lemma QrGoesIn(x: string, g: seq<Piece>, last: nat, e: nat, qr: string)
    requires Clean(g)
    requires LeafAt(g, last, CBC_ID, "", "QR") && forall i | last < i < |g| :: !LeafAt(g, i, CBC_ID, "", "QR")
    requires last <= e <= |g| && forall i | last <= i < e :: !LeafAt(g, i, BINARY, PLAIN, "")
    requires e < |g| ==> LeafAt(g, e, BINARY, PLAIN, "")
    ensures InjectQR(x + Concat(g), qr) == x + Concat(if e < |g| then g[e := g[e].(text := qr)] else g)
  {
    hide Concat, LastIndex, LeafText, ReplaceFirst, LeafAt, CleanPiece;
    LastQrIdIsFound(x, g, last);
    var a, b := g[..last], g[last..];
    assert a + b == g;
    ConcatSplits(a, b);
    CutAt(x + Concat(a), Concat(b), x, Concat(a));
    Associates(x, Concat(a), Concat(b));
    LeavesBehind(g, last);
    QrReplaces(b, e - last, qr);
    hide Clean;
    if e < |g| {
      var b' := b[e - last := b[e - last].(text := qr)];
      assert g[e := g[e].(text := qr)] == a + b';
      ConcatSplits(a, b');
      Associates(x, Concat(a), Concat(b'));
    }
  }

  lemma LeavesBehind(g: seq<Piece>, n: nat)
    requires n <= |g|
    ensures forall i | 0 <= i < |g| - n :: LeafAt(g[n..], i, BINARY, PLAIN, "") <==> LeafAt(g, n + i, BINARY, PLAIN, "")
  {
  }

  lemma LeafStartsTag(name: string, attrs: string, text: string)
    ensures LeafText(name, attrs, text) != "" && LeafText(name, attrs, text)[0] == '<'
  {
  }

  lemma CutAt(front: string, back: string, x: string, a: string)
    requires front == x + a
    ensures (front + back)[..|x| + |a|] == front && (front + back)[|x| + |a|..] == back
  {
  }

  lemma QrReplaces(b: seq<Piece>, e: nat, qr: string)
    requires Clean(b) && e <= |b|
    requires forall i | 0 <= i < e :: !LeafAt(b, i, BINARY, PLAIN, "")
    requires e < |b| ==> LeafAt(b, e, BINARY, PLAIN, "")
    ensures ReplaceFirst(Concat(b), LeafText(BINARY, PLAIN, ""), LeafText(BINARY, PLAIN, qr))
         == Concat(if e < |b| then b[e := b[e].(text := qr)] else b)
  {
    hide Concat, Index, LeafText, LeafAt, Clean, IsName, IsAttrs, NoMarkup;
    var w := LeafText(BINARY, PLAIN, "");
    BinaryIsName();
    PlainIsAttrs();
    IdIsName();
    LeafStartsTag(BINARY, PLAIN, "");
    forall i | 0 <= i < |b|
      ensures w <= Concat(b[i..]) <==> LeafAt(b, i, BINARY, PLAIN, "")
    {
      LeafPattern(b, i, BINARY, PLAIN, "");
    }
    if e == |b| {
      NoPiece(b, w);
    } else {
      FirstPiece(b, w, e);
      LeafInPieces(b, e, BINARY, PLAIN, "", qr);
    }
  }

  /** Replacing the text of an element without children, in the text and in the pieces. */
  lemma LeafInPieces(b: seq<Piece>, e: nat, name: string, attrs: string, text: string, put: string)
    requires LeafAt(b, e, name, attrs, text)
    ensures var (s, at, w) := (Concat(b), |Concat(b[..e])|, LeafText(name, attrs, text));
      && at + |w| <= |s|
      && s[..at] + LeafText(name, attrs, put) + s[at + |w|..] == Concat(b[e := b[e].(text := put)])
  {
    hide Concat, MarkText;
    var (front, p, q, rest) := (b[..e], b[e], b[e + 1], b[e + 2..]);
    var p' := p.(text := put);
    assert b == front + [p] + ([q] + rest) && b[e := p'] == front + [p'] + ([q] + rest);
    ThreeParts(front, p, [q] + rest);
    ThreeParts(front, p', [q] + rest);
    ThreeParts([], q, rest);
    NoPieces();
    assert [] + [q] + rest == [q] + rest;
    var (a, open, close, more) := (Concat(front), MarkText(p.mark), MarkText(q.mark), q.text + Concat(rest));
    assert Concat([q] + rest) == close + more;
    LeafSlices(a, open, text, close, more, put);
  }

  lemma LeafSlices(a: string, open: string, text: string, close: string, more: string, put: string)
    ensures var (s, w) := (a + open + text + (close + more), open + (text + close));
      s[..|a|] + (open + (put + close)) + s[|a| + |w|..] == a + open + put + (close + more)
  {
    var (s, w) := (a + open + text + (close + more), open + (text + close));
    assert s == a + w + more;
    assert s[..|a|] == a && s[|a| + |w|..] == more;
  }

  // ---------------------------------------------------------------- documents

  /** xml.EscapeText, on valid text. */
  function Escape(s: string): (e: string)
    ensures NoMarkup(e) && '"' !in e
  {
    if s == "" then "" else EscapeChar(s[0]) + Escape(s[1..])
  }

  function EscapeChar(c: char): (e: string)
    ensures NoMarkup(e) && '"' !in e && e != "" && (e == [c] || e[0] == '&')
  {
    if c == '<' then "&lt;"
    else if c == '>' then "&gt;"
    else if c == '&' then "&amp;"
    else if c == '"' then "&#34;"
    else if c == '\'' then "&#39;"
    else if c == '\t' then "&#x9;"
    else if c == '\n' then "&#xA;"
    else if c == '\r' then "&#xD;"
    else [c]
  }

  /** The character at the start of an escaped text and how much of the text writes it. */
  function FirstChar(e: string): (r: (char, nat))
    requires e != ""
    ensures 0 < r.1 <= |e|
  {
    if HasPrefix(e, "&lt;") then ('<', 4)
    else if HasPrefix(e, "&gt;") then ('>', 4)
    else if HasPrefix(e, "&amp;") then ('&', 5)
    else if HasPrefix(e, "&#34;") then ('"', 5)
    else if HasPrefix(e, "&#39;") then ('\'', 5)
    else if HasPrefix(e, "&#x9;") then ('\t', 5)
    else if HasPrefix(e, "&#xA;") then ('\n', 5)
    else if HasPrefix(e, "&#xD;") then ('\r', 5)
    else (e[0], 1)
  }

  function Unescape(e: string): string {
    if e == "" then ""
    else
      var (c, n) := FirstChar(e);
      [c] + Unescape(e[n..])
  }

  /** Reading an escaped value gives the value back, whatever characters it holds. */
  lemma {:induction false} EscapedIsRead(s: string)
    ensures Unescape(Escape(s)) == s
  {
    hide FirstChar, EscapeChar;
    if s != "" {
      var e := Escape(s);
      CharIsRead(s[0], Escape(s[1..]));
      assert e[|EscapeChar(s[0])|..] == Escape(s[1..]);
      EscapedIsRead(s[1..]);
    }
  }

  lemma CharIsRead(c: char, rest: string)
    ensures FirstChar(EscapeChar(c) + rest) == (c, |EscapeChar(c)|)
  {
    var (e, w) := (EscapeChar(c) + rest, EscapeChar(c));
    assert HasPrefix(e, w);
    if w != [c] {
      assert e[1] == w[1] && e[2] == w[2] && e[3] == w[3];
    }
  }

  /** writeElementIndent: an element around one escaped value. */
  function Written(name: string, value: string, tail: string): Element {
    Element(name, "", Escape(value), [], tail)
  }

  const EXTENSIONS := "ext:UBLExtensions"
  const EXTENSION := "ext:UBLExtension"
  const EXTENSION_URI := "ext:ExtensionURI"
  const EXTENSION_CONTENT := "ext:ExtensionContent"
  const SIGNATURES := "sig:UBLDocumentSignatures"
  const REFERENCE := "cac:AdditionalDocumentReference"
  const ATTACHMENT := "cac:Attachment"
  const INVOICE := "Invoice"
  const XML := "?xml"

  /** The fixed texts of the document: the declaration, the namespaces of the root and of the signatures, and the
      URNs. */
  datatype Fixed = Fixed(declaration: string, rootSpaces: string, signatureSpaces: string, uri: string,
                         information: string, reference: string)
  {
    predicate Clean() {
      && IsAttrs(declaration) && IsAttrs(rootSpaces) && IsAttrs(signatureSpaces)
      && NoMarkup(uri) && NoMarkup(information) && NoMarkup(reference) && reference != "QR"
    }
  }

  /** A signature element and the text before it, as buildDSSignature writes them. */
  datatype Signature = Signature(lead: string, element: Element)
  {
    function Text(): string {
      lead + Concat(FlattenAll([element]))
    }

    predicate Clean() {
      NoMarkup(lead) && CleanTrees([element])
    }
  }

  /** What stands behind the id of the signature information: the id of the reference and, when signed, the
      signature. */
  function Slot(fixed: Fixed, signature: Option<Signature>): seq<Element> {
    match signature
    case None => [Element(SIGNATURE_ID, "", fixed.reference, [], GAP)]
    case Some(s) => [Element(SIGNATURE_ID, "", fixed.reference, [], "\n" + s.lead),
                     s.element.(tail := s.element.tail + GAP)]
  }

  function Information(fixed: Fixed, signature: Option<Signature>): Element {
    Element(SIGNATURE_INFORMATION, "", "\n                    ",
            [Element(CBC_ID, "", fixed.information, [], "\n                    ")]
                 + Slot(fixed, signature), "\n            ")
  }

  function Content(fixed: Fixed, signature: Option<Signature>): Element {
    Element(EXTENSION_CONTENT, "", "\n            ", [
      Element(SIGNATURES, fixed.signatureSpaces, "\n                ", [Information(fixed, signature)], "\n        ")
    ], "\n    ")
  }

  /** The extensions section. */
  function Extensions(fixed: Fixed, signature: Option<Signature>): Element {
    Element(EXTENSIONS, "", "\n    ", [
      Element(EXTENSION, "", "\n        ", [
        Element(EXTENSION_URI, "", fixed.uri, [], "\n        "),
        Content(fixed, signature)
      ], "\n")
    ], "\n    ")
  }

  /** The reference that holds the QR code. */
  function QrReference(qr: string): Element {
    Element(REFERENCE, "", "\n        ", [
      Element(CBC_ID, "", "QR", [], "\n        "),
      Element(ATTACHMENT, "", "\n            ", [Element(BINARY, PLAIN, qr, [], "\n        ")], "\n    ")
    ], "\n    ")
  }

  function Root(fixed: Fixed, signature: Option<Signature>, before: seq<Element>, qr: string, after: seq<Element>)
    : Element
  {
    Element(INVOICE, fixed.rootSpaces, "", [Extensions(fixed, signature)] + before + [QrReference(qr)] + after, "")
  }

  /** A document: the declaration and the root. */
  function XmlText(declaration: string, root: Element): string {
    Concat([Piece(Open(XML, declaration), "\n")] + Flatten(root))
  }

  /** ToXML: the extensions first, the QR reference later, and any sections between and after them. */
  function Document(fixed: Fixed, signature: Option<Signature>, before: seq<Element>, qr: string, after: seq<Element>)
    : string
  {
    XmlText(fixed.declaration, Root(fixed, signature, before, qr, after))
  }

  /** A clean tree that a text stands for. */
  ghost predicate Parses(text: string, root: Element) {
    CleanTrees([root]) && exists declaration :: IsAttrs(declaration) && text == XmlText(declaration, root)
  }

  /** A text stands for one tree at most. */
  lemma ParsesOnce(text: string, root: Element, other: Element)
    requires Parses(text, root) && Parses(text, other)
    ensures root == other
  {
    hide XmlText, Flatten, FlattenAll, Concat, Proper, IsAttrs;
    var d :| IsAttrs(d) && text == XmlText(d, root);
    var e :| IsAttrs(e) && text == XmlText(e, other);
    PiecesOfText(d, root);
    PiecesOfText(e, other);
    PiecesAreRead([Piece(Open(XML, d), "\n")] + FlattenAll([root]), [Piece(Open(XML, e), "\n")] + FlattenAll([other]));
    FirstOf(Piece(Open(XML, d), "\n"), FlattenAll([root]));
    FirstOf(Piece(Open(XML, e), "\n"), FlattenAll([other]));
    assert FlattenAll([root]) + [] == FlattenAll([root]) == FlattenAll([other]) == FlattenAll([other]) + [];
    TreesAreRead([root], [], [other], []);
    assert [root][0] == [other][0];
  }

  lemma PiecesOfText(declaration: string, root: Element)
    requires IsAttrs(declaration) && CleanTrees([root])
    ensures XmlText(declaration, root) == Concat([Piece(Open(XML, declaration), "\n")] + FlattenAll([root]))
    ensures Clean([Piece(Open(XML, declaration), "\n")] + FlattenAll([root]))
  {
    FlattenOne(root);
    ShortNamesAreNames();
    SpacesAreText();
    hide Flatten, FlattenAll, Concat, IsAttrs, IsName, NoMarkup;
  }

  // ---------------------------------------------------------------- the pieces of a document

  function Start(fixed: Fixed): seq<Piece> {
    [Piece(Open(XML, fixed.declaration), "\n"), Piece(Open(INVOICE, fixed.rootSpaces), ""),
     Piece(Open(EXTENSIONS, ""), "\n    "), Piece(Open(EXTENSION, ""), "\n        "),
     Piece(Open(EXTENSION_URI, ""), fixed.uri), Piece(Close(EXTENSION_URI), "\n        "),
     Piece(Open(EXTENSION_CONTENT, ""), "\n            "),
     Piece(Open(SIGNATURES, fixed.signatureSpaces), "\n                "),
     Piece(Open(SIGNATURE_INFORMATION, ""), "\n                    "),
     Piece(Open(CBC_ID, ""), fixed.information), Piece(Close(CBC_ID), "\n                    ")]
  }

  function EndOfExtensions(): seq<Piece> {
    [Piece(Close(SIGNATURE_INFORMATION), "\n            "), Piece(Close(SIGNATURES), "\n        "),
     Piece(Close(EXTENSION_CONTENT), "\n    "), Piece(Close(EXTENSION), "\n"), Piece(Close(EXTENSIONS), "\n    ")]
  }

  function StartOfReference(): seq<Piece> {
    [Piece(Open(REFERENCE, ""), "\n        "), Piece(Open(CBC_ID, ""), "QR"), Piece(Close(CBC_ID), "\n        "),
     Piece(Open(ATTACHMENT, ""), "\n            ")]
  }

  function EndOfReference(): seq<Piece> {
    [Piece(Close(BINARY), "\n        "), Piece(Close(ATTACHMENT), "\n    "), Piece(Close(REFERENCE), "\n    ")]
  }

  /** All pieces after the slot for the signature. */
  function Rest(before: seq<Element>, qr: string, after: seq<Element>): seq<Piece> {
    EndOfExtensions() + FlattenAll(before) + StartOfReference() + [Piece(Open(BINARY, PLAIN), qr)] + EndOfReference()
    + FlattenAll(after) + [Piece(Close(INVOICE), "")]
  }

  lemma FlattenOne(e: Element)
    ensures FlattenAll([e]) == Flatten(e)
  {
    assert [e][1..] == [];
  }

  lemma FlattenTwo(e: Element, f: Element)
    ensures FlattenAll([e, f]) == Flatten(e) + Flatten(f)
  {
    assert [e, f][1..] == [f];
    FlattenOne(f);
  }

  lemma FlattenLeaf(name: string, attrs: string, text: string, tail: string)
    ensures Flatten(Element(name, attrs, text, [], tail)) == [Piece(Open(name, attrs), text), Piece(Close(name), tail)]
  {
  }

  lemma FlattenNode(e: Element)
    requires !e.single
    ensures Flatten(e) == [Piece(Open(e.name, e.attrs), e.text)] + FlattenAll(e.children)
         + [Piece(Close(e.name), e.tail)]
  {
  }

  lemma PiecesOfReference(qr: string)
    ensures Flatten(QrReference(qr)) == StartOfReference() + [Piece(Open(BINARY, PLAIN), qr)] + EndOfReference()
  {
    var id, binary := Element(CBC_ID, "", "QR", [], "\n        "), Element(BINARY, PLAIN, qr, [], "\n        ");
    var attachment := Element(ATTACHMENT, "", "\n            ", [binary], "\n    ");
    FlattenNode(QrReference(qr));
    FlattenTwo(id, attachment);
    FlattenLeaf(CBC_ID, "", "QR", "\n        ");
    FlattenNode(attachment);
    FlattenOne(binary);
    FlattenLeaf(BINARY, PLAIN, qr, "\n        ");
    hide Flatten, FlattenAll;
  }

  lemma PiecesOfInformation(fixed: Fixed, signature: Option<Signature>)
    ensures Flatten(Information(fixed, signature))
         == [Piece(Open(SIGNATURE_INFORMATION, ""), "\n                    "),
             Piece(Open(CBC_ID, ""), fixed.information), Piece(Close(CBC_ID), "\n                    ")]
          + FlattenAll(Slot(fixed, signature)) + [Piece(Close(SIGNATURE_INFORMATION), "\n            ")]
  {
    var id := Element(CBC_ID, "", fixed.information, [], "\n                    ");
    FlattenNode(Information(fixed, signature));
    FlattenSplits([id], Slot(fixed, signature));
    FlattenOne(id);
    FlattenLeaf(CBC_ID, "", fixed.information, "\n                    ");
    hide Flatten, FlattenAll, Slot;
  }

  lemma PiecesOfExtensions(fixed: Fixed, signature: Option<Signature>)
    ensures [Piece(Open(XML, fixed.declaration), "\n"), Piece(Open(INVOICE, fixed.rootSpaces), "")]
          + Flatten(Extensions(fixed, signature))
         == Start(fixed) + FlattenAll(Slot(fixed, signature)) + EndOfExtensions()
  {
    var information := Information(fixed, signature);
    var signatures := Element(SIGNATURES, fixed.signatureSpaces, "\n                ", [information], "\n        ");
    var content := Content(fixed, signature);
    var uri := Element(EXTENSION_URI, "", fixed.uri, [], "\n        ");
    var extension := Element(EXTENSION, "", "\n        ", [uri, content], "\n");
    hide Flatten, FlattenAll, Slot;
    PiecesOfInformation(fixed, signature);
    FlattenOne(information);
    FlattenNode(signatures);
    FlattenOne(signatures);
    FlattenNode(content);
    FlattenLeaf(EXTENSION_URI, "", fixed.uri, "\n        ");
    FlattenTwo(uri, content);
    FlattenNode(extension);
    FlattenOne(extension);
    FlattenNode(Extensions(fixed, signature));
  }

  lemma PiecesOfDocument(fixed: Fixed, signature: Option<Signature>, before: seq<Element>, qr: string,
                         after: seq<Element>)
    ensures [Piece(Open(XML, fixed.declaration), "\n")] + Flatten(Root(fixed, signature, before, qr, after))
         == Start(fixed) + FlattenAll(Slot(fixed, signature)) + Rest(before, qr, after)
  {
    hide Flatten, FlattenAll, Extensions, Slot, QrReference, Start, EndOfExtensions, StartOfReference, EndOfReference;
    var ext, ref := Extensions(fixed, signature), QrReference(qr);
    FlattenNode(Root(fixed, signature, before, qr, after));
    FlattenSplits([ext] + before + [ref], after);
    FlattenSplits([ext] + before, [ref]);
    FlattenSplits([ext], before);
    FlattenOne(ext);
    FlattenOne(ref);
    PiecesOfExtensions(fixed, signature);
    PiecesOfReference(qr);
    var (x, o) := ([Piece(Open(XML, fixed.declaration), "\n")], [Piece(Open(INVOICE, fixed.rootSpaces), "")]);
    var (b, a, c) := (FlattenAll(before), FlattenAll(after), [Piece(Close(INVOICE), "")]);
    assert x + o == [Piece(Open(XML, fixed.declaration), "\n"), Piece(Open(INVOICE, fixed.rootSpaces), "")];
    Regroup(x, o, Flatten(ext), b, Flatten(ref), a, c);
    Ungroup(Start(fixed), FlattenAll(Slot(fixed, signature)), EndOfExtensions(), b,
            StartOfReference(), [Piece(Open(BINARY, PLAIN), qr)], EndOfReference(), a, c);
  }

  lemma Regroup<T>(x: seq<T>, o: seq<T>, e: seq<T>, b: seq<T>, r: seq<T>, a: seq<T>, c: seq<T>)
    ensures x + (o + (e + b + r + a) + c) == x + o + e + b + r + a + c
  {
  }

  lemma Ungroup<T>(s: seq<T>, g: seq<T>, f: seq<T>, b: seq<T>, u: seq<T>, q: seq<T>, v: seq<T>, a: seq<T>, c: seq<T>)
    ensures s + g + f + b + (u + q + v) + a + c == s + g + (f + b + u + q + v + a + c)
  {
  }

  lemma EmptySlot(fixed: Fixed)
    ensures FlattenAll(Slot(fixed, None))
         == [Piece(Open(SIGNATURE_ID, ""), fixed.reference)] + [Piece(Close(SIGNATURE_ID), GAP)]
  {
    FlattenOne(Slot(fixed, None)[0]);
    FlattenLeaf(SIGNATURE_ID, "", fixed.reference, GAP);
    hide Flatten, FlattenAll;
  }

  lemma OnePiece(p: Piece)
    ensures Concat([p]) == MarkText(p.mark) + p.text
  {
    hide MarkText;
    ConcatStep([p]);
    assert [p][1..] == [];
    NoPieces();
  }

  /** The tail of an element ends its text. */
  lemma TailIsLast(e: Element, text: string)
    ensures Concat(Flatten(e.(tail := e.tail + text))) == Concat(Flatten(e)) + text
  {
    hide Concat, MarkText, FlattenAll;
    var f := e.(tail := e.tail + text);
    var m := if e.single then Single(e.name, e.attrs) else Close(e.name);
    var front := if e.single then [] else [Piece(Open(e.name, e.attrs), e.text)] + FlattenAll(e.children);
    assert Flatten(e) == front + [Piece(m, e.tail)] && Flatten(f) == front + [Piece(m, e.tail + text)];
    hide Flatten;
    ConcatSplits(front, [Piece(m, e.tail)]);
    ConcatSplits(front, [Piece(m, e.tail + text)]);
    OnePiece(Piece(m, e.tail));
    OnePiece(Piece(m, e.tail + text));
    TailText(Concat(front), MarkText(m), e.tail, text);
  }

  lemma TailText(a: string, m: string, t: string, text: string)
    ensures a + (m + (t + text)) == a + (m + t) + text
  {
  }

  /** The slot with a signature, as text. */
  lemma SignedSlot(fixed: Fixed, s: Signature)
    ensures Concat(FlattenAll(Slot(fixed, Some(s))))
         == Concat([Piece(Open(SIGNATURE_ID, ""), fixed.reference)]) + MarkText(Close(SIGNATURE_ID))
              + ("\n" + s.Text() + GAP)
  {
    var (o, c, e) := (Piece(Open(SIGNATURE_ID, ""), fixed.reference), Piece(Close(SIGNATURE_ID), "\n" + s.lead),
                      s.element.(tail := s.element.tail + GAP));
    FlattenTwo(Slot(fixed, Some(s))[0], e);
    FlattenLeaf(SIGNATURE_ID, "", fixed.reference, "\n" + s.lead);
    TailIsLast(s.element, GAP);
    FlattenOne(s.element);
    hide Concat, MarkText, Flatten, FlattenAll;
    assert [o, c] == [o] + [c];
    ConcatSplits([o, c], Flatten(e));
    ConcatSplits([o], [c]);
    OnePiece(c);
    SlotText(Concat([o]), MarkText(c.mark), s.lead, Concat(Flatten(s.element)), GAP);
  }

  lemma SlotText(o: string, m: string, lead: string, element: string, gap: string)
    ensures o + (m + ("\n" + lead)) + (element + gap) == o + m + ("\n" + (lead + element) + gap)
  {
  }

  // ---------------------------------------------------------------- signing edits only what hashing strips

  lemma SectionNamesAreNames()
    ensures IsName(EXTENSIONS) && IsName(EXTENSION)
  {
  }

  lemma ContentNamesAreNames()
    ensures IsName(EXTENSION_URI) && IsName(EXTENSION_CONTENT)
  {
  }

  lemma SignaturesIsName()
    ensures IsName(SIGNATURES)
  {
  }

  lemma ReferenceIsName()
    ensures IsName(REFERENCE)
  {
  }

  lemma ShortNamesAreNames()
    ensures IsName(ATTACHMENT) && IsName(INVOICE) && IsName(XML)
  {
  }

  lemma GapIsText()
    ensures NoMarkup(GAP)
  {
  }

  lemma SpacesAreText()
    ensures NoMarkup("\n                    ") && NoMarkup("\n            ") && NoMarkup("\n        ")
    ensures NoMarkup("\n    ")
    ensures NoMarkup("\n") && NoMarkup("")
  {
  }

  lemma AllNames()
    ensures IsName(EXTENSIONS) && IsName(EXTENSION) && IsName(EXTENSION_URI) && IsName(EXTENSION_CONTENT)
    ensures IsName(SIGNATURES) && IsName(REFERENCE) && IsName(ATTACHMENT) && IsName(INVOICE) && IsName(XML)
    ensures IsName(SIGNATURE_ID) && IsName(SIGNATURE_INFORMATION) && IsName(BINARY) && IsName(CBC_ID)
    ensures IsAttrs(PLAIN) && IsAttrs("") && NoMarkup("QR") && NoMarkup(GAP)
  {
    hide IsName, IsAttrs, NoMarkup;
    SectionNamesAreNames();
    ContentNamesAreNames();
    SignaturesIsName();
    ReferenceIsName();
    ShortNamesAreNames();
    SignatureIdIsName();
    SignatureInformationIsName();
    BinaryIsName();
    PlainIsAttrs();
    IdIsName();
    GapIsText();
  }

  lemma StartIsClean(fixed: Fixed)
    requires fixed.Clean()
    ensures Clean(Start(fixed))
  {
    AllNames();
    SpacesAreText();
    hide IsName, IsAttrs, NoMarkup;
  }

  lemma EndsAreClean(qr: string)
    requires NoMarkup(qr)
    ensures Clean(EndOfExtensions()) && Clean(StartOfReference()) && Clean([Piece(Open(BINARY, PLAIN), qr)])
    ensures Clean(EndOfReference()) && Clean([Piece(Close(INVOICE), "")])
  {
    AllNames();
    SpacesAreText();
    hide IsName, IsAttrs, NoMarkup;
  }

  predicate HasQrId(ps: seq<Piece>) {
    exists i :: 0 <= i < |ps| && LeafAt(ps, i, CBC_ID, "", "QR")
  }

  predicate NoBinary(ps: seq<Piece>) {
    forall i | 0 <= i < |ps| :: !(ps[i].mark.Open? && ps[i].mark.name == BINARY)
  }

  lemma CleanJoins(a: seq<Piece>, b: seq<Piece>)
    requires Clean(a) && Clean(b)
    ensures Clean(a + b)
  {
    hide CleanPiece;
  }

  lemma RestIsClean(before: seq<Element>, qr: string, after: seq<Element>)
    requires Clean(FlattenAll(before)) && NoMarkup(qr) && Clean(FlattenAll(after))
    ensures Clean(Rest(before, qr, after))
  {
    EndsAreClean(qr);
    hide Clean, NoMarkup, EndOfExtensions, StartOfReference, EndOfReference;
    var (code, end) := ([Piece(Open(BINARY, PLAIN), qr)], [Piece(Close(INVOICE), "")]);
    CleanJoins(EndOfExtensions(), FlattenAll(before));
    CleanJoins(EndOfExtensions() + FlattenAll(before), StartOfReference());
    CleanJoins(EndOfExtensions() + FlattenAll(before) + StartOfReference(), code);
    var front := EndOfExtensions() + FlattenAll(before) + StartOfReference() + code;
    CleanJoins(front, EndOfReference());
    CleanJoins(front + EndOfReference(), FlattenAll(after));
    CleanJoins(front + EndOfReference() + FlattenAll(after), end);
  }

  /** The last piece from k on that is a QR id. */
  lemma {:induction false} LastQrId(g: seq<Piece>, k: nat, n: nat) returns (last: nat)
    requires k < n <= |g| && LeafAt(g, k, CBC_ID, "", "QR")
    ensures k <= last < n && LeafAt(g, last, CBC_ID, "", "QR")
    ensures forall i | last < i < n :: !LeafAt(g, i, CBC_ID, "", "QR")
    decreases n
  {
    if LeafAt(g, n - 1, CBC_ID, "", "QR") { return n - 1; }
    last := LastQrId(g, k, n - 1);
  }

  /** Where the QR id and its placeholder are in the rest of the document, and what follows them. */
  lemma PlacesOfQr(before: seq<Element>, qr: string, after: seq<Element>) returns (k: nat)
    ensures var (g, a) := (Rest(before, qr, after), FlattenAll(after));
      && k == |EndOfExtensions()| + |FlattenAll(before)| + 1 && k + 8 + |a| == |g|
      && g[k] == Piece(Open(CBC_ID, ""), "QR") && g[k + 1].mark == Close(CBC_ID)
      && g[k + 2] == Piece(Open(ATTACHMENT, ""), "\n            ") && g[k + 3] == Piece(Open(BINARY, PLAIN), qr)
      && g[k + 4..] == EndOfReference() + a + [Piece(Close(INVOICE), "")]
      && g[..k + 3] == EndOfExtensions() + FlattenAll(before) + StartOfReference()
  {
    assert |EndOfReference()| == 3;
    hide EndOfExtensions, EndOfReference, FlattenAll;
    var (f, b) := (EndOfExtensions(), FlattenAll(before));
    k := |f| + |b| + 1;
    var (u, p, v, a, c) := (StartOfReference(), [Piece(Open(BINARY, PLAIN), qr)], EndOfReference(), FlattenAll(after),
                            [Piece(Close(INVOICE), "")]);
    Cut(f + b, u, p, v + a + c);
    assert Rest(before, qr, after) == f + b + u + p + (v + a + c);
  }

  lemma Cut<T>(f: seq<T>, u: seq<T>, p: seq<T>, v: seq<T>)
    ensures var g := f + u + p + v;
      && g[..|f| + |u|] == f + u && g[|f| + |u| + |p|..] == v
      && (forall i | 0 <= i < |u| :: g[|f| + i] == u[i]) && (forall i | 0 <= i < |p| :: g[|f| + |u| + i] == p[i])
  {
  }

  ghost predicate TailAt(g: seq<Piece>, k: nat, a: seq<Piece>) {
    && k + 8 + |a| == |g|
    && g[k + 1].mark == Close(CBC_ID) && g[k + 2].mark == Open(ATTACHMENT, "") && g[k + 3].mark == Open(BINARY, PLAIN)
    && g[k + 4..] == EndOfReference() + a + [Piece(Close(INVOICE), "")]
  }

  lemma TailPieces(g: seq<Piece>, k: nat, a: seq<Piece>)
    requires TailAt(g, k, a)
    ensures g[k + 4].mark == Close(BINARY) && g[k + 5].mark.Close? && g[k + 6].mark.Close?
    ensures g[|g| - 1].mark == Close(INVOICE)
    ensures forall i | 0 <= i < |a| :: g[k + 7 + i] == a[i]
  {
    var t := g[k + 4..];
    assert t[0] == EndOfReference()[0] && t[1] == EndOfReference()[1] && t[2] == EndOfReference()[2];
    assert g[|g| - 1] == t[|t| - 1];
    forall i | 0 <= i < |a|
      ensures g[k + 7 + i] == a[i]
    {
      assert t[3 + i] == a[i];
    }
  }

  /** After the QR id, only the sections behind it can hold another one, and only they could hold a placeholder. */
  lemma TailMatches(g: seq<Piece>, k: nat, a: seq<Piece>)
    requires TailAt(g, k, a) && NoBinary(a)
    ensures HasQrId(a) <==> exists i :: k < i < |g| && LeafAt(g, i, CBC_ID, "", "QR")
    ensures forall i | k < i < |g| && i != k + 3 :: !LeafAt(g, i, BINARY, PLAIN, "")
    ensures g[k].mark != Open(BINARY, PLAIN) ==> !LeafAt(g, k, BINARY, PLAIN, "")
  {
    TailPieces(g, k, a);
    NamesDiffer();
    forall i | k < i < |g|
      ensures LeafAt(g, i, CBC_ID, "", "QR") ==> k + 7 <= i < k + 7 + |a| && LeafAt(a, i - k - 7, CBC_ID, "", "QR")
      ensures LeafAt(g, i, BINARY, PLAIN, "") ==> i == k + 3
    {
      if k + 7 <= i < k + 7 + |a| { assert g[i] == a[i - k - 7]; }
    }
    if HasQrId(a) {
      var i :| 0 <= i < |a| && LeafAt(a, i, CBC_ID, "", "QR");
      assert LeafAt(g, k + 7 + i, CBC_ID, "", "QR");
    }
  }

  lemma NamesDiffer()
    ensures CBC_ID != BINARY && ATTACHMENT != BINARY && CBC_ID != ATTACHMENT && CBC_ID != INVOICE
  {
    assert |CBC_ID| == 6 && |BINARY| == 32 && |ATTACHMENT| == 14 && |INVOICE| == 7;
  }

  /** The rest of an unsigned document has its QR id at k, its placeholder three pieces behind, and no other one from k
      on. */
  lemma QrInRest(before: seq<Element>, after: seq<Element>) returns (k: nat)
    requires NoBinary(FlattenAll(after))
    ensures var (g, a) := (Rest(before, "", after), FlattenAll(after));
      && k == |EndOfExtensions()| + |FlattenAll(before)| + 1 && k + 3 < |g|
      && LeafAt(g, k, CBC_ID, "", "QR") && LeafAt(g, k + 3, BINARY, PLAIN, "")
      && (HasQrId(a) <==> exists i :: k < i < |g| && LeafAt(g, i, CBC_ID, "", "QR"))
      && (forall i | k < i <= k + 3 :: !LeafAt(g, i, CBC_ID, "", "QR"))
      && forall i | k <= i < |g| && i != k + 3 :: !LeafAt(g, i, BINARY, PLAIN, "")
  {
    hide EndOfExtensions, StartOfReference, EndOfReference, FlattenAll, NoBinary, HasQrId;
    k := PlacesOfQr(before, "", after);
    var g := Rest(before, "", after);
    hide Rest;
    TailMatches(g, k, FlattenAll(after));
    NamesDiffer();
    TailPieces(g, k, FlattenAll(after));
  }

  /** What injectQR makes of the rest of a document behind any text. */
  lemma RestGetsQr(x: string, before: seq<Element>, qr: string, after: seq<Element>)
    requires Clean(FlattenAll(before)) && Clean(FlattenAll(after)) && NoBinary(FlattenAll(after))
    ensures InjectQR(x + Concat(Rest(before, "", after)), qr)
         == x + Concat(Rest(before, if HasQrId(FlattenAll(after)) then "" else qr, after))
  {
    hide Concat, InjectQR, EndOfExtensions, Rest, FlattenAll, LeafAt, NoBinary, HasQrId, Clean;
    var g := Rest(before, "", after);
    RestIsClean(before, "", after);
    var k := QrInRest(before, after);
    var last := LastQrId(g, k, |g|);
    var e := if last == k then k + 3 else |g|;
    QrGoesIn(x, g, last, e, qr);
    if last == k { RestWithQr(before, qr, after, k); }
  }

  lemma RestWithQr(before: seq<Element>, qr: string, after: seq<Element>, k: nat)
    requires k + 3 < |Rest(before, "", after)| && |EndOfExtensions()| + |FlattenAll(before)| + 1 == k
    ensures var g := Rest(before, "", after);
      g[k + 3 := g[k + 3].(text := qr)] == Rest(before, qr, after)
  {
  }

  /** What injectSignature makes of a document. */
  lemma DocumentGetsSignature(fixed: Fixed, before: seq<Element>, after: seq<Element>, s: Signature)
    requires fixed.Clean() && Clean(FlattenAll(before)) && Clean(FlattenAll(after))
    ensures InjectSignature(Document(fixed, None, before, "", after), s.Text())
         == Document(fixed, Some(s), before, "", after)
  {
    hide Concat, MarkText, InjectSignature, Slot, Rest, Start, Flatten, FlattenAll, Fixed.Clean, Clean, Signature.Text;
    var (start, o, p, rest) := (Start(fixed), Piece(Open(SIGNATURE_ID, ""), fixed.reference),
                                Piece(Close(SIGNATURE_ID), GAP),
                                Rest(before, "", after));
    PiecesOfDocument(fixed, None, before, "", after);
    PiecesOfDocument(fixed, Some(s), before, "", after);
    EmptySlot(fixed);
    Associates(start, [o], [p]);
    DocumentIsClean(fixed, before, after);
    SignatureGoesIn(start + [o], p, rest, s.Text());
    ThreeParts(start + [o], p.(text := "\n" + s.Text() + GAP), rest);
    SignedSlot(fixed, s);
    ConcatSplits(start, [o]);
    ConcatSplits(start + FlattenAll(Slot(fixed, Some(s))), rest);
    ConcatSplits(start, FlattenAll(Slot(fixed, Some(s))));
    Regrouped4(Concat(start), Concat([o]), MarkText(p.mark), "\n" + s.Text() + GAP);
  }

  lemma Regrouped4<T>(a: seq<T>, b: seq<T>, c: seq<T>, d: seq<T>)
    ensures a + b + c + d == a + (b + c + d)
  {
  }

  /** What injectQR makes of a document, signed or not. */
  lemma DocumentGetsQr(fixed: Fixed, signature: Option<Signature>, before: seq<Element>, qr: string,
                       after: seq<Element>)
    requires Clean(FlattenAll(before)) && Clean(FlattenAll(after)) && NoBinary(FlattenAll(after))
    ensures InjectQR(Document(fixed, signature, before, "", after), qr)
         == Document(fixed, signature, before, if HasQrId(FlattenAll(after)) then "" else qr, after)
  {
    hide Concat, InjectQR, Slot, Rest, Start, Flatten, FlattenAll, HasQrId, Clean, NoBinary;
    var front := Start(fixed) + FlattenAll(Slot(fixed, signature));
    var code := if HasQrId(FlattenAll(after)) then "" else qr;
    PiecesOfDocument(fixed, signature, before, "", after);
    PiecesOfDocument(fixed, signature, before, code, after);
    ConcatSplits(front, Rest(before, "", after));
    ConcatSplits(front, Rest(before, code, after));
    RestGetsQr(Concat(front), before, qr, after);
  }

  /** Main result: signing the text of a document gives the text of the document with the signature among its elements
      and, unless a section behind the QR reference also holds an id QR, with the QR code in its QR reference. */
  lemma SigningEditsTwoPlaces(fixed: Fixed, before: seq<Element>, after: seq<Element>, s: Signature, qr: string)
    requires fixed.Clean() && Clean(FlattenAll(before)) && Clean(FlattenAll(after)) && NoBinary(FlattenAll(after))
    ensures InjectQR(InjectSignature(Document(fixed, None, before, "", after), s.Text()), qr)
         == Document(fixed, Some(s), before, if HasQrId(FlattenAll(after)) then "" else qr, after)
  {
    hide InjectQR, InjectSignature, Document, FlattenAll, HasQrId, Fixed.Clean, Clean, NoBinary;
    DocumentGetsSignature(fixed, before, after, s);
    DocumentGetsQr(fixed, Some(s), before, qr, after);
  }

  lemma DocumentIsClean(fixed: Fixed, before: seq<Element>, after: seq<Element>)
    requires fixed.Clean() && Clean(FlattenAll(before)) && Clean(FlattenAll(after))
    ensures var front := Start(fixed) + [Piece(Open(SIGNATURE_ID, ""), fixed.reference)];
      && Clean(front + [Piece(Close(SIGNATURE_ID), GAP)] + Rest(before, "", after))
      && forall i | 0 <= i < |front| :: front[i].mark != Close(SIGNATURE_ID)
    ensures Rest(before, "", after) != [] && Rest(before, "", after)[0].mark == Close(SIGNATURE_INFORMATION)
  {
    StartIsClean(fixed);
    RestIsClean(before, "", after);
    StartHasNoEnd(fixed);
    SlotIsClean(fixed);
    hide CleanPiece, Start, IsName, IsAttrs, NoMarkup, FlattenAll;
  }

  lemma SlotIsClean(fixed: Fixed)
    requires fixed.Clean()
    ensures CleanPiece(Piece(Open(SIGNATURE_ID, ""), fixed.reference)) && CleanPiece(Piece(Close(SIGNATURE_ID), GAP))
  {
    AllNames();
    hide IsName, IsAttrs, NoMarkup;
  }

  lemma StartHasNoEnd(fixed: Fixed)
    ensures forall i | 0 <= i < |Start(fixed)| :: Start(fixed)[i].mark != Close(SIGNATURE_ID)
  {
    assert |SIGNATURE_ID| == 25 && |EXTENSION_URI| == 16 && |CBC_ID| == 6;
  }

  // ---------------------------------------------------------------- the trees behind the texts

  lemma {:induction false} ProperJoins(a: seq<Element>, b: seq<Element>)
    requires Proper(a) && Proper(b)
    ensures Proper(a + b)
  {
    if a == [] {
      assert a + b == b;
    } else {
      ProperJoins(a[1..], b);
      assert (a + b)[0] == a[0] && (a + b)[1..] == a[1..] + b;
    }
  }

  lemma ProperOne(e: Element)
    requires !e.single || (e.text == "" && e.children == [])
    requires Proper(e.children)
    ensures Proper([e])
  {
    assert [e][1..] == [];
  }

  lemma ProperNone()
    ensures Proper([])
  {
  }

  lemma ProperFirst(es: seq<Element>)
    requires Proper(es) && es != []
    ensures Proper(es[0].children) && (es[0].single ==> es[0].text == "" && es[0].children == [])
  {
  }

  lemma SlotIsProper(fixed: Fixed, signature: Option<Signature>)
    requires signature.Some? ==> signature.value.Clean()
    ensures Proper(Slot(fixed, signature))
  {
    hide Proper, Clean;
    ProperNone();
    var slot := Slot(fixed, signature);
    ProperOne(slot[0]);
    match signature {
      case None =>
      case Some(s) =>
        ProperFirst([s.element]);
        ProperOne(slot[1]);
        ProperJoins([slot[0]], [slot[1]]);
        assert slot == [slot[0]] + [slot[1]];
    }
  }

  lemma ExtensionsAreProper(fixed: Fixed, signature: Option<Signature>)
    requires signature.Some? ==> signature.value.Clean()
    ensures Proper([Extensions(fixed, signature)])
  {
    hide Proper, Slot, Signature.Clean;
    ProperNone();
    SlotIsProper(fixed, signature);
    var information := Information(fixed, signature);
    ProperOne(information.children[0]);
    ProperJoins([information.children[0]], Slot(fixed, signature));
    ProperOne(information);
    var content := Content(fixed, signature);
    ProperOne(content.children[0]);
    ProperOne(content);
    var extension := Extensions(fixed, signature).children[0];
    ProperOne(extension.children[0]);
    ProperJoins([extension.children[0]], [content]);
    assert extension.children == [extension.children[0]] + [content];
    ProperOne(extension);
    ProperOne(Extensions(fixed, signature));
  }

  lemma ReferenceIsProper(qr: string)
    ensures Proper([QrReference(qr)])
  {
    hide Proper;
    ProperNone();
    var c := QrReference(qr).children;
    ProperOne(c[0]);
    ProperOne(c[1].children[0]);
    ProperOne(c[1]);
    ProperJoins([c[0]], [c[1]]);
    assert c == [c[0]] + [c[1]];
    ProperOne(QrReference(qr));
  }

  lemma RootIsProper(fixed: Fixed, signature: Option<Signature>, before: seq<Element>, qr: string, after: seq<Element>)
    requires (signature.Some? ==> signature.value.Clean()) && Proper(before) && Proper(after)
    ensures Proper([Root(fixed, signature, before, qr, after)])
  {
    hide Proper, Extensions, QrReference, Signature.Clean;
    var ext, ref := Extensions(fixed, signature), QrReference(qr);
    ExtensionsAreProper(fixed, signature);
    ReferenceIsProper(qr);
    ProperJoins([ext], before);
    ProperJoins([ext] + before, [ref]);
    ProperJoins([ext] + before + [ref], after);
    ProperOne(Root(fixed, signature, before, qr, after));
  }

  lemma SignedSlotIsClean(fixed: Fixed, signature: Option<Signature>)
    requires fixed.Clean() && (signature.Some? ==> signature.value.Clean())
    ensures Clean(FlattenAll(Slot(fixed, signature)))
  {
    match signature
    case None =>
      EmptySlot(fixed);
      SlotIsClean(fixed);
      hide FlattenAll, CleanPiece;
    case Some(s) =>
      var o, c := Piece(Open(SIGNATURE_ID, ""), fixed.reference), Piece(Close(SIGNATURE_ID), "\n" + s.lead);
      FlattenTwo(Slot(fixed, signature)[0], s.element.(tail := s.element.tail + GAP));
      FlattenLeaf(SIGNATURE_ID, "", fixed.reference, "\n" + s.lead);
      FlattenOne(s.element);
      TailIsClean(s.element);
      SlotIsClean(fixed);
      assert CleanPiece(c) by { hide IsName; }
      hide FlattenAll, Flatten, CleanPiece;
      CleanJoins([o, c], Flatten(s.element.(tail := s.element.tail + GAP)));
  }

  lemma TailIsClean(e: Element)
    requires Clean(Flatten(e))
    ensures Clean(Flatten(e.(tail := e.tail + GAP)))
  {
    var (ps, f) := (Flatten(e), e.(tail := e.tail + GAP));
    var last := ps[|ps| - 1];
    hide FlattenAll;
    assert CleanPiece(last) && Flatten(f) == ps[..|ps| - 1] + [last.(text := last.text + GAP)];
    GapIsText();
    hide Flatten, CleanMark;
  }

  /** The document is a clean tree, with or without a signature. */
  lemma RootIsClean(fixed: Fixed, signature: Option<Signature>, before: seq<Element>, qr: string, after: seq<Element>)
    requires fixed.Clean() && (signature.Some? ==> signature.value.Clean()) && NoMarkup(qr)
    requires CleanTrees(before) && CleanTrees(after)
    ensures CleanTrees([Root(fixed, signature, before, qr, after)])
    ensures Parses(Document(fixed, signature, before, qr, after), Root(fixed, signature, before, qr, after))
  {
    hide Slot, Start, Rest, Flatten, FlattenAll, Proper, Signature.Clean, NoMarkup, XmlText, Root, IsAttrs, CleanPiece;
    var root := Root(fixed, signature, before, qr, after);
    RootIsProper(fixed, signature, before, qr, after);
    PiecesOfDocument(fixed, signature, before, qr, after);
    StartIsClean(fixed);
    SignedSlotIsClean(fixed, signature);
    RestIsClean(before, qr, after);
    CleanJoins(Start(fixed), FlattenAll(Slot(fixed, signature)));
    CleanJoins(Start(fixed) + FlattenAll(Slot(fixed, signature)), Rest(before, qr, after));
    CleanTail(Piece(Open(XML, fixed.declaration), "\n"), Flatten(root));
    FlattenOne(root);
  }

  lemma CleanTail(p: Piece, ps: seq<Piece>)
    requires Clean([p] + ps)
    ensures Clean(ps)
  {
    hide CleanPiece;
    forall i | 0 <= i < |ps|
      ensures CleanPiece(ps[i])
    {
      assert ([p] + ps)[i + 1] == ps[i];
    }
  }

  /** What writeElementIndent writes is clean, whatever the value holds. */
  lemma WrittenIsClean(name: string, value: string, tail: string)
    requires IsName(name) && NoMarkup(tail)
    ensures CleanTrees([Written(name, value, tail)])
  {
    hide IsName, Escape;
    ProperNone();
    ProperOne(Written(name, value, tail));
    FlattenOne(Written(name, value, tail));
    FlattenLeaf(name, "", Escape(value), tail);
    IdIsName();
  }
}
