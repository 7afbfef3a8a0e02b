/** What hashing strips from an invoice before it is canonicalized (crypto/hash.go). */
module Digest {
  import opened Text
  import opened Markup
  import opened Signing

  const NS_EXT := "urn:oasis:names:specification:ubl:schema:xsd:CommonExtensionComponents-2"
  const NS_CAC := "urn:oasis:names:specification:ubl:schema:xsd:CommonAggregateComponents-2"

  // ---------------------------------------------------------------- names

  function ColonAt(name: string): (i: nat)
    ensures i <= |name| && ':' !in name[..i] && (i < |name| ==> name[i] == ':')
  {
    if name == "" || name[0] == ':' then 0
    else
      var i := 1 + ColonAt(name[1..]);
      assert name[..i] == [name[0]] + name[1..][..i - 1];
      i
  }

  /** The prefix of a name, empty without a colon. */
  function PrefixOf(name: string): string {
    var i := ColonAt(name);
    if i < |name| then name[..i] else ""
  }

  function LocalOf(name: string): string {
    var i := ColonAt(name);
    if i < |name| then name[i + 1..] else name
  }

  lemma {:induction false} ColonAfter(prefix: string, tag: string)
    requires ':' !in prefix
    ensures ColonAt(prefix + ":" + tag) == |prefix|
  {
    var name := prefix + ":" + tag;
    if prefix == "" {
      assert name[0] == ':';
    } else {
      assert name[0] == prefix[0] && prefix[0] in prefix;
      assert name[1..] == prefix[1..] + ":" + tag;
      ColonAfter(prefix[1..], tag);
    }
  }

  lemma Qualified(prefix: string, tag: string)
    requires ':' !in prefix
    ensures PrefixOf(prefix + ":" + tag) == prefix && LocalOf(prefix + ":" + tag) == tag
  {
    var name := prefix + ":" + tag;
    ColonAfter(prefix, tag);
    assert name[..|prefix|] == prefix && name[|prefix| + 1..] == tag;
  }

  function TrimLeft(s: string): string {
    if s != "" && IsSpace(s[0]) then TrimLeft(s[1..]) else s
  }

  function TrimRight(s: string): string {
    if s != "" && IsSpace(s[|s| - 1]) then TrimRight(s[..|s| - 1]) else s
  }

  // ---------------------------------------------------------------- removing children

  /** A child of this tag whose prefix stands for this namespace. */
  predicate IsChild(spaces: map<string, string>, e: Element, space: string, tag: string) {
    var prefix := PrefixOf(e.name);
    LocalOf(e.name) == tag && prefix != "" && prefix in spaces && spaces[prefix] == space
  }

  const REFERENCE_TAG := "AdditionalDocumentReference"

  predicate IsQrId(e: Element) {
    LocalOf(e.name) == "ID" && TrimRight(TrimLeft(e.text)) == "QR"
  }

  predicate IsQrReference(e: Element) {
    LocalOf(e.name) == REFERENCE_TAG && exists i :: 0 <= i < |e.children| && IsQrId(e.children[i])
  }

  function AddTail(e: Element, text: string): Element {
    e.(tail := e.tail + text)
  }

  /** The element without a child. The text behind the child stays and joins what is before it. */
  function Without(e: Element, i: nat): Element
    requires i < |e.children|
  {
    var c := e.children;
    if i == 0 then e.(text := e.text + c[0].tail, children := c[1..])
    else e.(children := c[..i - 1] + [AddTail(c[i - 1], c[i].tail)] + c[i + 1..])
  }

  /** The first child with a property, or the number of children. */
  function First(c: seq<Element>, p: Element -> bool): (i: nat)
    ensures i <= |c| && (i < |c| ==> p(c[i])) && forall j | 0 <= j < i :: !p(c[j])
  {
    if c == [] || p(c[0]) then 0 else 1 + First(c[1..], p)
  }

  function WithoutFirst(e: Element, p: Element -> bool): Element {
    var i := First(e.children, p);
    if i < |e.children| then Without(e, i) else e
  }

  /** The part of the document that is canonicalized and hashed. */
  function Stripped(spaces: map<string, string>, root: Element): Element {
    var e := WithoutFirst(root, (c: Element) => IsChild(spaces, c, NS_EXT, "UBLExtensions"));
    var f := WithoutFirst(e, (c: Element) => IsChild(spaces, c, NS_CAC, "Signature"));
    WithoutFirst(f, (c: Element) => IsQrReference(c))
  }

  lemma FirstIs(c: seq<Element>, p: Element -> bool, i: nat)
    requires i <= |c| && (i < |c| ==> p(c[i])) && forall j | 0 <= j < i :: !p(c[j])
    ensures First(c, p) == i
  {
  }

  /** The parsed document, with the namespaces declared at its root. */
  class Dom {
    const spaces: map<string, string>
    var root: Element

    constructor (spaces: map<string, string>, root: Element)
      ensures this.spaces == spaces && this.root == root
    {
      this.spaces, this.root := spaces, root;
    }

    method RemoveChild(i: nat)
      requires i < |root.children|
      modifies this
      ensures root == Without(old(root), i)
    {
      var c := root.children;
      if i == 0 {
        root := root.(text := root.text + c[0].tail, children := c[1..]);
      } else {
        root := root.(children := c[..i - 1] + [AddTail(c[i - 1], c[i].tail)] + c[i + 1..]);
      }
    }

    method RemoveChildElement(space: string, tag: string)
      modifies this
      ensures root == WithoutFirst(old(root), (c: Element) => IsChild(spaces, c, space, tag))
    {
      var i := 0;
      ghost var p := (c: Element) => IsChild(spaces, c, space, tag);
      while i < |root.children|
        invariant 0 <= i <= |root.children| && root == old(root)
        invariant forall j | 0 <= j < i :: !p(root.children[j])
      {
        var child := root.children[i];
        var prefix := PrefixOf(child.name);
        if prefix != "" && prefix in spaces && spaces[prefix] == space && LocalOf(child.name) == tag {
          FirstIs(root.children, p, i);
          RemoveChild(i);
          return;
        }
        i := i + 1;
      }
      FirstIs(root.children, p, i);
    }

    /** The inner loop of removeQRReference. */
    method HoldsQrId(child: Element) returns (found: bool)
      ensures found <==> exists i :: 0 <= i < |child.children| && IsQrId(child.children[i])
    {
      for j := 0 to |child.children|
        invariant forall k | 0 <= k < j :: !IsQrId(child.children[k])
      {
        var sub := child.children[j];
        if LocalOf(sub.name) == "ID" && TrimRight(TrimLeft(sub.text)) == "QR" { return true; }
      }
      return false;
    }

    method RemoveQRReference()
      modifies this
      ensures root == WithoutFirst(old(root), (c: Element) => IsQrReference(c))
    {
      hide IsQrId, LocalOf, Without;
      var i := 0;
      ghost var p := (c: Element) => IsQrReference(c);
      while i < |root.children|
        invariant 0 <= i <= |root.children| && root == old(root)
        invariant forall j | 0 <= j < i :: !p(root.children[j])
      {
        var child := root.children[i];
        if LocalOf(child.name) == REFERENCE_TAG {
          var found := HoldsQrId(child);
          assert found <==> p(child);
          if found {
            FirstIs(root.children, p, i);
            RemoveChild(i);
            return;
          }
        }
        assert !p(child);
        i := i + 1;
      }
      FirstIs(root.children, p, i);
    }

    /** canonicalizeForHashing up to the canonicalization. */
    method StripForHashing()
      modifies this
      ensures root == Stripped(spaces, old(root))
    {
      RemoveChildElement(NS_EXT, "UBLExtensions");
      RemoveChildElement(NS_CAC, "Signature");
      RemoveQRReference();
    }
  }

  // ---------------------------------------------------------------- stability

  /** The children around the QR reference after the first child with a property is gone, and the texts that joined: the
      text before all children and the tail of the reference. The reference itself does not have the property. */
  datatype Around = Around(text: string, before: seq<Element>, tail: string, after: seq<Element>)

  function Rebuilt(e: Element, a: Around, q: Element): Element {
    e.(text := a.text, children := a.before + [q.(tail := a.tail)] + a.after)
  }

  function Removed(a: Around, p: Element -> bool): Around {
    var i, j := First(a.before, p), First(a.after, p);
    if i < |a.before| then
      var w := Without(Element("", "", a.text, a.before, ""), i);
      a.(text := w.text, before := w.children)
    else if j == |a.after| then a
    else if j == 0 then a.(tail := a.tail + a.after[0].tail, after := a.after[1..])
    else a.(after := Without(Element("", "", "", a.after, ""), j).children)
  }

  lemma RemovalBefore(e: Element, a: Around, q: Element, i: nat)
    requires i < |a.before|
    ensures var w := Without(Element("", "", a.text, a.before, ""), i);
      Without(Rebuilt(e, a, q), i) == Rebuilt(e, a.(text := w.text, before := w.children), q)
  {
    var (b, rest) := (a.before, [q.(tail := a.tail)] + a.after);
    Assoc(b, [q.(tail := a.tail)], a.after);
    if i == 0 {
      DropFirst(b, rest);
      Assoc(b[1..], [q.(tail := a.tail)], a.after);
    } else {
      var joined := AddTail(b[i - 1], b[i].tail);
      JoinLeft(b, rest, i, joined);
      Assoc(b[..i - 1] + [joined] + b[i + 1..], [q.(tail := a.tail)], a.after);
    }
  }

  lemma Assoc<T>(a: seq<T>, b: seq<T>, c: seq<T>)
    ensures a + b + c == a + (b + c)
  {
  }

  lemma DropFirst<T>(b: seq<T>, r: seq<T>)
    requires b != []
    ensures (b + r)[1..] == b[1..] + r && (b + r)[0] == b[0]
  {
  }

  /** Joining two elements of the left part. */
  lemma JoinLeft<T>(b: seq<T>, r: seq<T>, i: nat, joined: T)
    requires 0 < i < |b|
    ensures var c := b + r;
      && c[i - 1] == b[i - 1] && c[i] == b[i]
      && c[..i - 1] + [joined] + c[i + 1..] == b[..i - 1] + [joined] + b[i + 1..] + r
  {
    var c := b + r;
    assert c[..i - 1] == b[..i - 1] && c[i + 1..] == b[i + 1..] + r;
  }

  /** Joining two elements of the right part. */
  lemma JoinRight<T>(f: seq<T>, r: seq<T>, j: nat, joined: T)
    requires 0 < j < |r|
    ensures var (c, k) := (f + r, |f| + j);
      && c[k - 1] == r[j - 1] && c[k] == r[j]
      && c[..k - 1] + [joined] + c[k + 1..] == f + (r[..j - 1] + [joined] + r[j + 1..])
  {
    var (c, k) := (f + r, |f| + j);
    assert c[..k - 1] == f + r[..j - 1] && c[k + 1..] == r[j + 1..];
  }

  /** Joining the first element of the right part to the one between. */
  lemma JoinMiddle<T>(b: seq<T>, q: T, r: seq<T>, joined: T)
    requires r != []
    ensures var (c, n) := (b + [q] + r, |b|);
      c[n] == q && c[n + 1] == r[0] && c[..n] + [joined] + c[n + 2..] == b + [joined] + r[1..]
  {
    var (c, n) := (b + [q] + r, |b|);
    assert c[..n] == b && c[n + 2..] == r[1..];
  }

  lemma RemovalAfter(e: Element, a: Around, q: Element, j: nat)
    requires j < |a.after|
    ensures Without(Rebuilt(e, a, q), |a.before| + 1 + j)
         == Rebuilt(e, if j == 0 then a.(tail := a.tail + a.after[0].tail, after := a.after[1..])
                       else a.(after := Without(Element("", "", "", a.after, ""), j).children), q)
  {
    var (r, p) := (a.after, q.(tail := a.tail));
    if j == 0 {
      JoinMiddle(a.before, p, r, AddTail(p, r[0].tail));
    } else {
      JoinRight(a.before + [p], r, j, AddTail(r[j - 1], r[j].tail));
    }
  }

  /** Removing another child does not look at the reference. */
  lemma RemovalPasses(e: Element, a: Around, q: Element, p: Element -> bool)
    requires !p(q.(tail := a.tail))
    ensures WithoutFirst(Rebuilt(e, a, q), p) == Rebuilt(e, Removed(a, p), q)
  {
    hide Without;
    var c, n := Rebuilt(e, a, q).children, |a.before|;
    var i, j := First(a.before, p), First(a.after, p);
    if i < n {
      FirstIs(c, p, i);
      RemovalBefore(e, a, q, i);
    } else {
      FirstIs(c, p, n + 1 + j);
      if j < |a.after| { RemovalAfter(e, a, q, j); }
    }
  }

  /** The document without its QR reference. */
  function Closed(e: Element, a: Around): Element {
    var n := |a.before|;
    if n == 0 then e.(text := a.text + a.tail, children := a.after)
    else e.(text := a.text, children := a.before[..n - 1] + [AddTail(a.before[n - 1], a.tail)] + a.after)
  }

  lemma ReferenceGoes(e: Element, a: Around, q: Element, p: Element -> bool)
    requires p(q.(tail := a.tail)) && forall i | 0 <= i < |a.before| :: !p(a.before[i])
    ensures WithoutFirst(Rebuilt(e, a, q), p) == Closed(e, a)
  {
    FirstIs(Rebuilt(e, a, q).children, p, |a.before|);
  }

  predicate NoQr(c: seq<Element>) {
    forall i | 0 <= i < |c| :: !IsQrReference(c[i])
  }

  lemma TailDoesNotMatter(e: Element, tail: string)
    ensures IsQrReference(e.(tail := tail)) == IsQrReference(e)
  {
  }

  lemma RemovedKeepsNoQr(a: Around, p: Element -> bool)
    requires NoQr(a.before)
    ensures NoQr(Removed(a, p).before)
  {
    hide IsQrReference;
    var i := First(a.before, p);
    if 0 < i < |a.before| {
      TailDoesNotMatter(a.before[i - 1], a.before[i - 1].tail + a.before[i].tail);
    }
  }

  lemma TagOfReference()
    ensures LocalOf(REFERENCE) == REFERENCE_TAG
  {
    assert REFERENCE == "cac" + ":" + REFERENCE_TAG;
    hide ColonAt, LocalOf, PrefixOf;
    Qualified("cac", REFERENCE_TAG);
  }

  lemma TagOfId()
    ensures LocalOf(CBC_ID) == "ID"
  {
    assert CBC_ID == "cbc" + ":" + "ID";
    hide ColonAt, LocalOf, PrefixOf;
    Qualified("cbc", "ID");
  }

  lemma TagsDiffer()
    ensures REFERENCE_TAG != "UBLExtensions" && REFERENCE_TAG != "Signature"
  {
    assert |REFERENCE_TAG| == 27;
  }

  lemma ReferenceIsQr(qr: string, tail: string)
    ensures var q := QrReference(qr).(tail := tail);
      LocalOf(q.name) == REFERENCE_TAG && IsQrReference(q)
  {
    var q := QrReference(qr).(tail := tail);
    hide ColonAt, LocalOf, PrefixOf, TrimLeft, TrimRight;
    TagOfReference();
    TagOfId();
    TrimsNothing();
    assert IsQrId(q.children[0]);
  }

  lemma TrimsNothing()
    ensures TrimRight(TrimLeft("QR")) == "QR"
  {
    assert TrimLeft("QR") == "QR" && TrimRight("QR") == "QR";
  }

  lemma ExtensionsAreExtensions(spaces: map<string, string>, fixed: Fixed, signature: Option<Signature>)
    requires "ext" in spaces && spaces["ext"] == NS_EXT
    ensures IsChild(spaces, Extensions(fixed, signature), NS_EXT, "UBLExtensions")
  {
    assert EXTENSIONS == "ext" + ":" + "UBLExtensions";
    Qualified("ext", "UBLExtensions");
  }

  /** What hashing keeps of a document, told without its signature and its QR code. */
  lemma StrippedDocument(spaces: map<string, string>, fixed: Fixed, signature: Option<Signature>, before: seq<Element>,
                         qr: string, after: seq<Element>)
    requires "ext" in spaces && spaces["ext"] == NS_EXT && NoQr(before)
    ensures var a := Removed(Around("\n    ", before, "\n    ", after),
                             (c: Element) => IsChild(spaces, c, NS_CAC, "Signature"));
      Stripped(spaces, Root(fixed, signature, before, qr, after))
           == Closed(Element(INVOICE, fixed.rootSpaces, "", [], ""), a)
  {
    hide Extensions, QrReference, IsChild, IsQrReference, WithoutFirst, Closed, Removed, NoQr;
    var root, shell := Root(fixed, signature, before, qr, after), Element(INVOICE, fixed.rootSpaces, "", [], "");
    var q, around := QrReference(qr), Around("\n    ", before, "\n    ", after);
    var s := (c: Element) => IsChild(spaces, c, NS_CAC, "Signature");
    ExtensionsGo(spaces, fixed, signature, before, qr, after);
    ReferenceIsQr(qr, "\n    ");
    TagsDiffer();
    NotAChild(spaces, q.(tail := "\n    "), NS_CAC, "Signature");
    RemovalPasses(shell, around, q, s);
    var a := Removed(around, s);
    RemovedKeepsNoQr(around, s);
    ReferenceIsQr(qr, a.tail);
    LastStep(shell, a, q);
  }

  lemma LastStep(shell: Element, a: Around, q: Element)
    requires IsQrReference(q.(tail := a.tail)) && NoQr(a.before)
    ensures WithoutFirst(Rebuilt(shell, a, q), (c: Element) => IsQrReference(c)) == Closed(shell, a)
  {
    hide IsQrReference;
    ReferenceGoes(shell, a, q, (c: Element) => IsQrReference(c));
  }

  lemma ExtensionsGo(spaces: map<string, string>, fixed: Fixed, signature: Option<Signature>, before: seq<Element>,
                     qr: string, after: seq<Element>)
    requires "ext" in spaces && spaces["ext"] == NS_EXT
    ensures WithoutFirst(Root(fixed, signature, before, qr, after),
                         (c: Element) => IsChild(spaces, c, NS_EXT, "UBLExtensions"))
         == Rebuilt(Element(INVOICE, fixed.rootSpaces, "", [], ""), Around("\n    ", before, "\n    ", after),
                    QrReference(qr))
  {
    var root := Root(fixed, signature, before, qr, after);
    assert Extensions(fixed, signature).tail == "\n    " && QrReference(qr).tail == "\n    ";
    hide Extensions, QrReference, IsChild;
    ExtensionsAreExtensions(spaces, fixed, signature);
    FirstIs(root.children, (c: Element) => IsChild(spaces, c, NS_EXT, "UBLExtensions"), 0);
    assert root.children[1..] == before + [QrReference(qr)] + after;
  }

  lemma NotAChild(spaces: map<string, string>, e: Element, space: string, tag: string)
    requires LocalOf(e.name) != tag
    ensures !IsChild(spaces, e, space, tag)
  {
  }

  /** Main result: what is canonicalized and hashed after the signature and the QR code are put in is what was there
      before. The document and the signed text each stand for one clean tree, and the two trees are stripped to the
      same. No section before the QR reference may be a QR reference too. */
  lemma SigningKeepsTheDigestInput(spaces: map<string, string>, fixed: Fixed, before: seq<Element>, after: seq<Element>,
                                   s: Signature, qr: string)
    requires "ext" in spaces && spaces["ext"] == NS_EXT && NoQr(before)
    requires fixed.Clean() && s.Clean() && NoMarkup(qr) && CleanTrees(before) && CleanTrees(after)
    requires NoBinary(FlattenAll(after))
    ensures var text := Document(fixed, None, before, "", after);
      var signed := InjectQR(InjectSignature(text, s.Text()), qr);
      && (exists e :: Parses(text, e)) && (exists f :: Parses(signed, f))
      && forall e, f :: Parses(text, e) && Parses(signed, f) ==> Stripped(spaces, e) == Stripped(spaces, f)
  {
    hide InjectQR, InjectSignature, Document, Root, Flatten, FlattenAll, HasQrId, Stripped, Parses, Proper, Clean,
      NoMarkup, NoBinary, NoQr, Fixed.Clean, Signature.Clean;
    var code := if HasQrId(FlattenAll(after)) then "" else qr;
    var text, signed := Document(fixed, None, before, "", after), Document(fixed, Some(s), before, code, after);
    var root, other := Root(fixed, None, before, "", after), Root(fixed, Some(s), before, code, after);
    SigningEditsTwoPlaces(fixed, before, after, s, qr);
    SpacesAreText();
    RootIsClean(fixed, None, before, "", after);
    RootIsClean(fixed, Some(s), before, code, after);
    StrippedDocument(spaces, fixed, None, before, "", after);
    StrippedDocument(spaces, fixed, Some(s), before, code, after);
    forall e, f | Parses(text, e) && Parses(signed, f)
      ensures Stripped(spaces, e) == Stripped(spaces, f)
    {
      ParsesOnce(text, e, root);
      ParsesOnce(signed, f, other);
    }
  }
}
