/** The dictionaries of a one-page file, and a reader that follows their references from the catalog to the page's
    content and font (ISO 32000-1, sections 7.3.7, 7.7.2 and 7.7.3). */
module PageTree {

  import opened Wrappers
  import opened Decimal
  import opened PdfFile
  import opened PdfText

  // ---------------------------------------------------------------- words

  function FirstSpace(s: string): (i: nat)
    ensures i <= |s| && (i < |s| ==> s[i] == ' ') && forall j :: 0 <= j < i ==> s[j] != ' '
  {
    if s == "" || s[0] == ' ' then 0 else 1 + FirstSpace(s[1..])
  }

  /** What stands between single spaces. */
  function Words(s: string): seq<string> {
    var i := FirstSpace(s);
    if i == |s| then [s] else [s[..i]] + Words(s[i + 1..])
  }

  predicate NoSpace(w: string) { forall i :: 0 <= i < |w| ==> w[i] != ' ' }

  lemma {:induction false} OneWordMore(w: string, rest: string, s: string)
    requires NoSpace(w) && s == w + (" " + rest)
    ensures Words(s) == [w] + Words(rest)
  {
    assert s[|w|] == ' ' && s[..|w|] == w && s[|w| + 1..] == rest;
    assert forall j :: 0 <= j < |w| ==> s[j] == w[j];
    assert FirstSpace(s) == |w|;
  }

  lemma {:induction false} WordsOfSpaced(ws: seq<string>)
    requires ws != [] && forall i :: 0 <= i < |ws| ==> NoSpace(ws[i])
    ensures Words(Spaced(ws)) == ws
  {
    assert NoSpace(ws[0]);
    if |ws| > 1 {
      WordsOfSpaced(ws[1..]);
      var rest := Spaced(ws[1..]);
      assert ws[0] + " " + rest == ws[0] + (" " + rest);
      OneWordMore(ws[0], rest, Spaced(ws));
    }
  }

  // ---------------------------------------------------------------- the reader

  /** The index of the first word that is `key`, or the number of words. */
  function Find(ws: seq<string>, key: string): (i: nat)
    ensures i <= |ws| && (i < |ws| ==> ws[i] == key) && forall j :: 0 <= j < i ==> ws[j] != key
  {
    if ws == [] || ws[0] == key then 0 else 1 + Find(ws[1..], key)
  }

  /** The word after a key. */
  function Entry(ws: seq<string>, key: string): Option<string> {
    var i := Find(ws, key);
    if i + 1 < |ws| then Some(ws[i + 1]) else None
  }

  /** A number, perhaps the first of an array. */
  function Number(w: string): Option<nat> {
    var digits := if w != "" && w[0] == '[' then w[1..] else w;
    if digits == "" || !AllDigits(digits) then None else Some(Value(digits))
  }

  /** The object that a key refers to: "n 0 R". */
  function Reference(ws: seq<string>, key: string): Option<nat> {
    var i := Find(ws, key);
    if i + 3 < |ws| && ws[i + 2] == "0" && (ws[i + 3] == "R" || ws[i + 3] == "R]") then Number(ws[i + 1]) else None
  }

  /** Object `i` if it is a dictionary of the given type. */
  function Typed(objs: seq<string>, i: nat, kind: string): Option<seq<string>> {
    if 1 <= i <= |objs| && Entry(Words(objs[i - 1]), "/Type") == Some(kind) then Some(Words(objs[i - 1])) else None
  }

  /** The content and the font of the only page: from the root, over /Pages and /Kids, to /Contents and /F1. */
  function FollowTree(objs: seq<string>, root: nat): Option<(nat, nat)> {
    match Typed(objs, root, "/Catalog")
    case None => None
    case Some(catalog) =>
      match Reference(catalog, "/Pages")
      case None => None
      case Some(i) =>
        match Typed(objs, i, "/Pages")
        case None => None
        case Some(pages) =>
          match Reference(pages, "/Kids")
          case None => None
          case Some(j) =>
            match Typed(objs, j, "/Page")
            case None => None
            case Some(page) => FollowPage(objs, i, page)
  }

  /** A page whose parent is object `parent`. */
  function FollowPage(objs: seq<string>, parent: nat, page: seq<string>): Option<(nat, nat)> {
    match (Reference(page, "/Contents"), Reference(page, "/F1"))
    case (Some(content), Some(font)) =>
      if Reference(page, "/Parent") == Some(parent) && Typed(objs, font, "/Font").Some? then Some((content, font))
      else None
    case _ => None
  }

  // ---------------------------------------------------------------- the dictionaries

  const CATALOG_WORDS := ["<<", "/Type", "/Catalog", "/Pages", "2", "0", "R", ">>"]
  const PAGES_WORDS := ["<<", "/Type", "/Pages", "/Kids", "[3", "0", "R]", "/Count", "1", ">>"]
  const PAGE_WORDS := ["<<", "/Type", "/Page", "/Parent", "2", "0", "R", "/MediaBox", "[0", "0", "612", "792]",
                       "/Resources", "<<", "/Font", "<<", "/F1", "5", "0", "R", ">>", ">>", "/Contents", "4", "0", "R",
                       ">>"]
  const FONT_WORDS := ["<<", "/Type", "/Font", "/Subtype", "/Type1", "/BaseFont", "/Helvetica", ">>"]

  lemma NumberOf(w: string, d: nat)
    requires d < 10 && (w == [Digit(d)] || w == ['[', Digit(d)])
    ensures Number(w) == Some(d)
  {
    var digits := [Digit(d)];
    assert digits[..0] == "";
    assert Value(digits) == d;
    if w != digits { assert w[1..] == digits; }
  }

  lemma {:induction false} FindIs(ws: seq<string>, key: string, i: nat)
    requires i < |ws| && ws[i] == key && forall j :: 0 <= j < i ==> ws[j] != key
    ensures Find(ws, key) == i
  {}

  /** Another length or another second character. */
  predicate Differs(w: string, key: string) { |w| != |key| || (|w| > 1 && w[1] != key[1]) }

  /** The first place of `key`, and a reference after it. */
  ghost predicate RefersAt(ws: seq<string>, key: string, i: nat, d: nat) {
    && i + 3 < |ws| && ws[i] == key && (forall j :: 0 <= j < i ==> Differs(ws[j], key))
    && d < 10 && (ws[i + 1] == [Digit(d)] || ws[i + 1] == ['[', Digit(d)])
    && ws[i + 2] == "0" && (ws[i + 3] == "R" || ws[i + 3] == "R]")
  }

  lemma {:induction false} RefersTo(ws: seq<string>, key: string, i: nat, d: nat)
    requires RefersAt(ws, key, i, d)
    ensures Reference(ws, key) == Some(d)
  {
    forall j | 0 <= j < i ensures ws[j] != key { assert Differs(ws[j], key); }
    FindIs(ws, key, i);
    NumberOf(ws[i + 1], d);
  }

  ghost predicate NoSpaces(ws: seq<string>) { forall j :: 0 <= j < |ws| ==> NoSpace(ws[j]) }

  /** The words of a dictionary of the given type. */
  ghost predicate Dictionary(ws: seq<string>, kind: string) {
    |ws| > 2 && NoSpaces(ws) && ws[0] == "<<" && ws[1] == "/Type" && ws[2] == kind
  }

  lemma {:induction false} TypedAs(objs: seq<string>, i: nat, ws: seq<string>, kind: string)
    requires 1 <= i <= |objs| && objs[i - 1] == Spaced(ws) && Dictionary(ws, kind)
    ensures Typed(objs, i, kind) == Some(ws)
  {
    WordsOfSpaced(ws);
    FindIs(ws, "/Type", 1);
  }

  lemma CatalogShape()
    ensures Dictionary(CATALOG_WORDS, "/Catalog") && Dictionary(PAGES_WORDS, "/Pages")
  {}

  lemma PageShape()
    ensures Dictionary(PAGE_WORDS, "/Page")
  {}

  lemma FontShape()
    ensures Dictionary(FONT_WORDS, "/Font")
  {}

  lemma CatalogRefers()
    ensures RefersAt(CATALOG_WORDS, "/Pages", 3, 2) && RefersAt(PAGES_WORDS, "/Kids", 3, 3)
  {
    assert Digit(2) == '2' && Digit(3) == '3';
  }

  lemma ParentRefers()
    ensures RefersAt(PAGE_WORDS, "/Parent", 3, 2)
  {
    assert Digit(2) == '2';
  }

  lemma FontRefers()
    ensures RefersAt(PAGE_WORDS, "/F1", 16, 5)
  {
    assert Digit(5) == '5';
  }

  lemma ContentRefers()
    ensures RefersAt(PAGE_WORDS, "/Contents", 22, 4)
  {
    assert Digit(4) == '4';
  }

  /** Dictionaries that refer to each other this way lead from the root to content and font. */
  lemma {:induction false} LeadsOn(objs: seq<string>, catalog: seq<string>, pages: seq<string>, page: seq<string>)
    requires Typed(objs, 1, "/Catalog") == Some(catalog) && Typed(objs, 2, "/Pages") == Some(pages)
    requires Typed(objs, 3, "/Page") == Some(page) && Typed(objs, 5, "/Font").Some?
    requires Reference(catalog, "/Pages") == Some(2) && Reference(pages, "/Kids") == Some(3)
    requires Reference(page, "/Parent") == Some(2) && Reference(page, "/F1") == Some(5)
    requires Reference(page, "/Contents") == Some(4)
    ensures FollowTree(objs, 1) == Some((4, 5))
  {
    assert FollowPage(objs, 2, page) == Some((4, 5));
  }

  lemma PageRefers()
    ensures Reference(PAGE_WORDS, "/Parent") == Some(2) && Reference(PAGE_WORDS, "/F1") == Some(5)
    ensures Reference(PAGE_WORDS, "/Contents") == Some(4)
  {
    ParentRefers();
    FontRefers();
    ContentRefers();
    RefersTo(PAGE_WORDS, "/Parent", 3, 2);
    RefersTo(PAGE_WORDS, "/F1", 16, 5);
    RefersTo(PAGE_WORDS, "/Contents", 22, 4);
  }

  lemma TreeRefers()
    ensures Reference(CATALOG_WORDS, "/Pages") == Some(2) && Reference(PAGES_WORDS, "/Kids") == Some(3)
    ensures Reference(PAGE_WORDS, "/Parent") == Some(2) && Reference(PAGE_WORDS, "/F1") == Some(5)
    ensures Reference(PAGE_WORDS, "/Contents") == Some(4)
  {
    CatalogRefers();
    RefersTo(CATALOG_WORDS, "/Pages", 3, 2);
    RefersTo(PAGES_WORDS, "/Kids", 3, 3);
    PageRefers();
  }

  lemma TreeIsTyped(objs: seq<string>)
    requires |objs| == 5 && objs[0] == Spaced(CATALOG_WORDS) && objs[1] == Spaced(PAGES_WORDS)
    requires objs[2] == Spaced(PAGE_WORDS) && objs[4] == Spaced(FONT_WORDS)
    ensures Typed(objs, 1, "/Catalog") == Some(CATALOG_WORDS) && Typed(objs, 2, "/Pages") == Some(PAGES_WORDS)
    ensures Typed(objs, 3, "/Page") == Some(PAGE_WORDS) && Typed(objs, 5, "/Font").Some?
  {
    CatalogShape();
    PageShape();
    FontShape();
    TypedAs(objs, 1, CATALOG_WORDS, "/Catalog");
    TypedAs(objs, 2, PAGES_WORDS, "/Pages");
    TypedAs(objs, 3, PAGE_WORDS, "/Page");
    TypedAs(objs, 5, FONT_WORDS, "/Font");
  }

  /** The tree of a one-page file leads from its root to its content, which is object 4, and to its font. */
  lemma TreeLeads(objs: seq<string>)
    requires |objs| == 5 && objs[0] == Spaced(CATALOG_WORDS) && objs[1] == Spaced(PAGES_WORDS)
    requires objs[2] == Spaced(PAGE_WORDS) && objs[4] == Spaced(FONT_WORDS)
    ensures FollowTree(objs, 1) == Some((4, 5))
  {
    TreeIsTyped(objs);
    TreeRefers();
    LeadsOn(objs, CATALOG_WORDS, PAGES_WORDS, PAGE_WORDS);
  }
}
