/** The two report writers, and what a reader sees of the files they print. */
module Reports {

  import opened Wrappers
  import opened Decimal
  import opened PdfText
  import opened PdfFile
  import opened PageTree
  import opened PageText

  datatype Finding = Finding(severity: string, description: string)

  datatype Report = Report(title: string, agencyId: string, auditorOrg: string, year: nat, controls: nat,
                           summary: string, findings: seq<Finding>)

  /** The lines of a report page. */
  function ReportLines(r: Report): seq<string> {
    [r.title, "Agency: " + r.agencyId, "Auditor: " + r.auditorOrg, "Reporting year: " + Print(r.year),
     "Controls evaluated: " + Print(r.controls), "", "Executive summary", r.summary, "", "Findings"]
    + FindingLines(r.findings)
    + (if r.findings == [] then ["No findings identified in this sample assessment."] else [])
  }

  function FindingLines(fs: seq<Finding>): seq<string> {
    seq(|fs|, i requires 0 <= i < |fs| => fs[i].severity + ": " + fs[i].description)
  }

  /** What a reader sees of a line: Latin-1 bytes, each end-of-line marker as one line feed. */
  function Seen(line: string): string { NormalizeEol(Latin1(line)) }

  function AsRead(lines: seq<string>): seq<string> {
    seq(|lines|, i requires 0 <= i < |lines| => Seen(lines[i]))
  }

  /** What the page of a file shows, and where: from its tail through the table to the trailer's root, along the
      references of the page tree, into the page's content by its /Length alone, and through its text operators. The
      page's font has to be there. */
  function ReadPage(pdf: string): Option<seq<Placed>> {
    if !At(pdf, 0, "%PDF-1.") then None
    else
      match ReadPdf(pdf)
      case None => None
      case Some(objs) =>
        match FollowTree(objs, 1)
        case None => None
        case Some((content, _)) =>
          match ReadStream(pdf, content)
          case None => None
          case Some(stream) => ShownOn(stream)
  }

  function Texts(ps: seq<Placed>): seq<string> { seq(|ps|, i requires 0 <= i < |ps| => ps[i].text) }

  /** The strings on the page of a file. */
  function PageStrings(pdf: string): Option<seq<string>> {
    match ReadPage(pdf)
    case None => None
    case Some(ps) => Some(Texts(ps))
  }

  const CATALOG := Spaced(CATALOG_WORDS)
  const PAGES := Spaced(PAGES_WORDS)
  const PAGE := Spaced(PAGE_WORDS)
  const FONT := Spaced(FONT_WORDS)

  function PageObjects(stream: string): seq<string> {
    [CATALOG, PAGES, PAGE, StreamObject(stream), FONT]
  }

  // ---------------------------------------------------------------- where the lines go

  /** A report's first line stands at the top in 15 points, the second one 19 below, and each further one 15 below
      the one before, all in 10 points. */
  function ReportLayout(lines: seq<string>): (ps: seq<Placed>)
    ensures Texts(ps) == lines
  {
    seq(|lines|, k requires 0 <= k < |lines| => Placed(54, ReportY(k), ReportSize(k), lines[k]))
  }

  function ReportY(k: nat): int { if k == 0 then 748 else 744 - 15 * k }

  function ReportSize(k: nat): int { if k == 0 then 15 else 10 }

  /** A title in 18 points, and each line 22 below the one before in 10 points. */
  function TitledLayout(title: string, lines: seq<string>): (ps: seq<Placed>)
    ensures Texts(ps) == [title] + lines
  {
    [Placed(72, 750, 18, title)]
    + seq(|lines|, k requires 0 <= k < |lines| => Placed(72, 728 - 22 * k, 10, lines[k]))
  }

  ghost predicate OnPage(ps: seq<Placed>) { forall k :: 0 <= k < |ps| ==> 0 <= ps[k].y <= 792 }

  /** There is no second page: a report's lines are on its page exactly when there are at most 50 of them, which is up
      to 40 findings, and a titled page's exactly when there are at most 34. */
  lemma {:induction false} LinesFitIff(title: string, lines: seq<string>)
    ensures OnPage(ReportLayout(lines)) <==> |lines| <= 50
    ensures OnPage(TitledLayout(title, lines)) <==> |lines| <= 34
  {
    if |lines| > 50 { assert ReportLayout(lines)[50].y < 0; }
    if |lines| > 34 { assert TitledLayout(title, lines)[35].y < 0; }
  }

  /** Where a report's fields stand among its lines: the title on top, and each finding on a line of its own from the
      eleventh on. */
  lemma LinesTell(r: Report)
    ensures var lines := ReportLines(r);
            && |lines| == 10 + (if r.findings == [] then 1 else |r.findings|)
            && lines[0] == r.title && lines[1] == "Agency: " + r.agencyId && lines[2] == "Auditor: " + r.auditorOrg
            && lines[7] == r.summary
            && forall i :: 0 <= i < |r.findings| ==>
                             lines[10 + i] == r.findings[i].severity + ": " + r.findings[i].description
  {}

  lemma ReportFitsIff(report: Report)
    ensures OnPage(ReportLayout(AsRead(ReportLines(report)))) <==> |report.findings| <= 40
  {
    LinesFitIff("", AsRead(ReportLines(report)));
  }

  // ---------------------------------------------------------------- the content stream

  /** A content stream made of `pieces`, which leaves a reader's pen as it is. */
  ghost predicate Shows(content: seq<string>, pieces: seq<Piece>, pen: Pen) {
    content == RenderAll(pieces) && PlainOps(pieces) && DrawFrom(START, TokensOf(pieces)) == Some(pen)
  }

  lemma {:induction false} TokensSnoc(ps: seq<Piece>, p: Piece)
    ensures TokensOf(ps + [p]) == TokensOf(ps) + TokensBy(p)
  {
    if ps == [] {
      assert ps + [p] == [p];
      assert TokensOf([p]) == TokensBy(p) + [];
    } else {
      assert (ps + [p])[1..] == ps[1..] + [p];
      TokensSnoc(ps[1..], p);
    }
  }

  lemma {:induction false} AddPiece(content: seq<string>, pieces: seq<Piece>, pen: Pen, piece: Piece, next: Pen)
    requires Shows(content, pieces, pen) && DrawFrom(pen, TokensBy(piece)) == Some(next)
    requires piece.Op? ==> piece.words != [] && AllPlain(piece.words)
    ensures Shows(content + [Render(piece)], pieces + [piece], next)
  {
    TokensSnoc(pieces, piece);
    DrawConcat(START, TokensOf(pieces), TokensBy(piece), pen);
    assert RenderAll(pieces + [piece]) == RenderAll(pieces) + [Render(piece)];
  }

  /** Appends the line of one operator with its operands. */
  method Put(content: seq<string>, words: seq<string>, ghost pieces: seq<Piece>, ghost pen: Pen, ghost next: Pen)
    returns (r: seq<string>, ghost more: seq<Piece>)
    requires Shows(content, pieces, pen) && DrawFrom(pen, WordTokens(words)) == Some(next)
    requires words != [] && AllPlain(words)
    ensures r == content + [Spaced(words)] && Shows(r, more, next)
  {
    r, more := content + [Spaced(words)], pieces + [Op(words)];
    AddPiece(content, pieces, pen, Op(words), next);
  }

  /** The pen once a string has been shown. */
  function Stamped(pen: Pen, v: string): Pen { pen.(shown := pen.shown + [Placed(pen.x, pen.y, pen.size, v)]) }

  /** Appends the line that shows one string. */
  method ShowLine(content: seq<string>, line: string, ghost pieces: seq<Piece>, ghost pen: Pen)
    returns (r: seq<string>, ghost more: seq<Piece>)
    requires Shows(content, pieces, pen) && pen.inText && pen.size > 0 && pen.operands == []
    ensures r == content + ["(" + Escape(line) + ") Tj"] && Shows(r, more, Stamped(pen, Seen(line)))
  {
    r, more := content + ["(" + Escape(line) + ") Tj"], pieces + [Show(line)];
    ShowDraws(pen, Seen(line));
    AddPiece(content, pieces, pen, Show(line), Stamped(pen, Seen(line)));
  }

  /** Appends a move of the line start. */
  method Move(content: seq<string>, a: string, b: string, ghost dx: int, ghost dy: int, ghost pieces: seq<Piece>,
              ghost pen: Pen)
    returns (r: seq<string>, ghost more: seq<Piece>)
    requires Shows(content, pieces, pen) && pen.inText && pen.operands == []
    requires Plain(a) && Plain(b) && Whole(Word(a)) == Some(dx) && Whole(Word(b)) == Some(dy)
    ensures r == content + [Spaced([a, b, "Td"])] && Shows(r, more, pen.(x := pen.x + dx, y := pen.y + dy))
  {
    WholeIsOperand(a);
    WholeIsOperand(b);
    MoveDraws(pen, a, b, dx, dy);
    assert WordTokens([a, b, "Td"]) == [Word(a), Word(b), Word("Td")];
    r, more := Put(content, [a, b, "Td"], pieces, pen, pen.(x := pen.x + dx, y := pen.y + dy));
  }

  /** Appends a move straight down. */
  method StepDown(content: seq<string>, b: string, ghost dy: int, ghost pieces: seq<Piece>, ghost pen: Pen)
    returns (r: seq<string>, ghost more: seq<Piece>)
    requires Shows(content, pieces, pen) && pen.inText && pen.operands == []
    requires Plain(b) && Whole(Word(b)) == Some(dy)
    ensures r == content + [Spaced(["0", b, "Td"])] && Shows(r, more, pen.(y := pen.y + dy))
  {
    Zero();
    r, more := Move(content, "0", b, 0, dy, pieces, pen);
    assert pen.(x := pen.x + 0, y := pen.y + dy) == pen.(y := pen.y + dy);
  }

  /** Appends a change of the font size. */
  method Size(content: seq<string>, b: string, ghost size: int, ghost pieces: seq<Piece>, ghost pen: Pen)
    returns (r: seq<string>, ghost more: seq<Piece>)
    requires Shows(content, pieces, pen) && pen.operands == [] && Plain(b) && Whole(Word(b)) == Some(size)
    ensures r == content + [Spaced(["/F1", b, "Tf"])] && Shows(r, more, pen.(size := size))
  {
    WholeIsOperand(b);
    FontDraws(pen, b, size);
    assert WordTokens(["/F1", b, "Tf"]) == [Word("/F1"), Word(b), Word("Tf")];
    r, more := Put(content, ["/F1", b, "Tf"], pieces, pen, pen.(size := size));
  }

  lemma WholeIsOperand(w: string)
    requires Whole(Word(w)).Some?
    ensures !IsOperator(w)
  {}

  /** Opens the text object at a corner of the page. */
  method Open(size: string, a: string, b: string, ghost n: int, ghost x: int, ghost y: int)
    returns (content: seq<string>, ghost pieces: seq<Piece>)
    requires Plain(size) && Plain(a) && Plain(b)
    requires Whole(Word(size)) == Some(n) && Whole(Word(a)) == Some(x) && Whole(Word(b)) == Some(y)
    ensures content == ["BT", Spaced(["/F1", size, "Tf"]), Spaced([a, b, "Td"])]
    ensures Shows(content, pieces, Pen(true, x, y, n, [], []))
  {
    BeginDraws(START);
    assert WordTokens(["BT"]) == [Word("BT")];
    content, pieces := Put([], ["BT"], [], START, Pen(true, 0, 0, 0, [], []));
    content, pieces := Size(content, size, n, pieces, Pen(true, 0, 0, 0, [], []));
    content, pieces := Move(content, a, b, x, y, pieces, Pen(true, 0, 0, n, [], []));
  }

  /** Closes the text object. */
  method Close(content: seq<string>, ghost pieces: seq<Piece>, ghost pen: Pen)
    returns (r: seq<string>, ghost more: seq<Piece>)
    requires Shows(content, pieces, pen) && pen.inText && pen.operands == []
    ensures r == content + ["ET"] && Shows(r, more, pen.(inText := false))
  {
    EndDraws(pen);
    assert WordTokens(["ET"]) == [Word("ET")];
    r, more := Put(content, ["ET"], pieces, pen, pen.(inText := false));
  }

  lemma {:induction false} ShownIsRead(content: seq<string>, pieces: seq<Piece>, pen: Pen)
    requires Shows(content, pieces, pen) && !pen.inText && pen.operands == []
    ensures ShownOn(Latin1(JoinLines(content))) == Some(pen.shown)
  {
    ContentRoundTrip(pieces);
  }

  /** Encodes a content stream, wraps it into the page's objects and prints the file. */
  method WritePage(content: seq<string>, ghost pieces: seq<Piece>, ghost pen: Pen) returns (pdf: string)
    requires Shows(content, pieces, pen) && !pen.inText && pen.operands == []
    ensures |pdf| < TEN_TO_10 ==> ReadPdf(pdf) == Some(PageObjects(Latin1(JoinLines(content))))
    ensures |pdf| < TEN_TO_10 ==> ReadPage(pdf) == Some(pen.shown)
  {
    ShownIsRead(content, pieces, pen);
    var stream := Latin1(JoinLines(content));
    PageTreeLeads(stream);
    pdf := WriteStream(PageObjects(stream), stream);
  }

  lemma PageTreeLeads(stream: string)
    ensures |PageObjects(stream)| == 5 && PageObjects(stream)[3] == StreamObject(stream)
    ensures FollowTree(PageObjects(stream), 1) == Some((4, 5))
  {
    TreeLeads(PageObjects(stream));
  }

  lemma HeaderStands(pdf: string)
    requires HEADER <= pdf
    ensures At(pdf, 0, "%PDF-1.")
  {}

  /** Objects whose tree leads to a content stream. */
  method WriteStream(objects: seq<string>, ghost stream: string) returns (pdf: string)
    requires |objects| == 5 && objects[3] == StreamObject(stream) && FollowTree(objects, 1) == Some((4, 5))
    ensures |pdf| < TEN_TO_10 ==> ReadPdf(pdf) == Some(objects) && ReadPage(pdf) == ShownOn(stream)
  {
    ghost var starts, base;
    pdf, starts, base := WriteObjects(objects);
    HeaderStands(pdf);
    if |pdf| < TEN_TO_10 { StreamRoundTrip(pdf, objects, starts, base, 4, stream); }
  }

  // ---------------------------------------------------------------- the writers

  /** Lists the lines of a report page. */
  method CollectLines(report: Report) returns (lines: seq<string>)
    ensures lines == ReportLines(report)
  {
    lines := [report.title, "Agency: " + report.agencyId, "Auditor: " + report.auditorOrg,
              "Reporting year: " + Print(report.year), "Controls evaluated: " + Print(report.controls), "",
              "Executive summary", report.summary, "", "Findings"];
    lines := lines + FindingLines(report.findings);
    if report.findings == [] {
      lines := lines + ["No findings identified in this sample assessment."];
    }
  }

  /** The pen in front of line `k` of a report. */
  function ReportPen(k: nat, shown: seq<string>): Pen {
    Pen(true, 54, ReportY(k), ReportSize(k), [], ReportLayout(shown))
  }

  lemma {:induction false} ReportGrows(shown: seq<string>, v: string)
    ensures Stamped(ReportPen(|shown|, shown), v).shown == ReportLayout(shown + [v])
  {}

  lemma {:induction false} SeenSnoc(lines: seq<string>, k: nat)
    requires k < |lines|
    ensures AsRead(lines[..k + 1]) == AsRead(lines[..k]) + [Seen(lines[k])]
  {}

  /** One line of a report: a larger step and a smaller font after the title. */
  method ReportLine(content: seq<string>, number: nat, line: string, ghost pieces: seq<Piece>,
                    ghost shown: seq<string>)
    returns (r: seq<string>, ghost more: seq<Piece>)
    requires Shows(content, pieces, ReportPen(number, shown)) && |shown| == number
    ensures Shows(r, more, ReportPen(number + 1, shown + [Seen(line)]))
  {
    ghost var pen := Stamped(ReportPen(number, shown), Seen(line));
    r, more := ShowLine(content, line, pieces, ReportPen(number, shown));
    NextPen(shown, Seen(line));
    if number == 0 {
      r, more := AfterTitle(r, more, pen);
    } else {
      r, more := AfterLine(r, more, pen);
    }
  }

  lemma {:induction false} NextPen(shown: seq<string>, v: string)
    ensures var pen := Stamped(ReportPen(|shown|, shown), v);
            && pen.inText && pen.operands == []
            && (if shown == [] then pen.(y := pen.y - 19, size := 10) else pen.(y := pen.y - 15))
               == ReportPen(|shown| + 1, shown + [v])
  {
    ReportGrows(shown, v);
  }

  /** The step and the font after the title. */
  method AfterTitle(content: seq<string>, ghost pieces: seq<Piece>, ghost pen: Pen)
    returns (r: seq<string>, ghost more: seq<Piece>)
    requires Shows(content, pieces, pen) && pen.inText && pen.operands == []
    ensures Shows(r, more, pen.(y := pen.y - 19, size := 10))
  {
    Steps();
    r, more := StepDown(content, "-19", -19, pieces, pen);
    r, more := SizeTen(r, more, pen.(y := pen.y - 19));
  }

  /** The step after any other line. */
  method AfterLine(content: seq<string>, ghost pieces: seq<Piece>, ghost pen: Pen)
    returns (r: seq<string>, ghost more: seq<Piece>)
    requires Shows(content, pieces, pen) && pen.inText && pen.operands == []
    ensures Shows(r, more, pen.(y := pen.y - 15))
  {
    Steps();
    r, more := StepDown(content, "-15", -15, pieces, pen);
  }

  /** The content stream of a page of report lines, but for its end. */
  method ShowLines(lines: seq<string>) returns (content: seq<string>, ghost pieces: seq<Piece>)
    ensures Shows(content, pieces, ReportPen(|lines|, AsRead(lines)))
  {
    Sizes();
    Corners();
    content, pieces := Open("15", "54", "748", 15, 54, 748);
    assert ReportLayout(AsRead(lines[..0])) == [];
    for number := 0 to |lines|
      invariant Shows(content, pieces, ReportPen(number, AsRead(lines[..number])))
    {
      SeenSnoc(lines, number);
      content, pieces := ReportLine(content, number, lines[number], pieces, AsRead(lines[..number]));
    }
    assert lines[..|lines|] == lines;
  }

  /** Prints a page of report lines. */
  method WriteReportPage(lines: seq<string>) returns (pdf: string)
    ensures |pdf| < TEN_TO_10 ==> ReadPage(pdf) == Some(ReportLayout(AsRead(lines)))
  {
    var content;
    ghost var pieces;
    ghost var pen := ReportPen(|lines|, AsRead(lines));
    content, pieces := ShowLines(lines);
    content, pieces := Close(content, pieces, pen);
    pdf := WritePage(content, pieces, pen.(inText := false));
  }

  /** `report_as_pdf`: a reader of the printed file finds exactly the report's lines, in order, each one where its
      layout puts it. */
  method ReportAsPdf(report: Report) returns (pdf: string)
    ensures |pdf| < TEN_TO_10 ==> ReadPage(pdf) == Some(ReportLayout(AsRead(ReportLines(report))))
    ensures |pdf| < TEN_TO_10 ==> PageStrings(pdf) == Some(AsRead(ReportLines(report)))
  {
    var lines := CollectLines(report);
    pdf := WriteReportPage(lines);
  }

  /** The pen once the title and the first `|shown|` lines of a titled page are shown. */
  function TitledPen(title: string, shown: seq<string>): Pen {
    Pen(true, 72, 750 - 22 * |shown|, 10, [], TitledLayout(title, shown))
  }

  lemma {:induction false} TitledGrows(title: string, shown: seq<string>, v: string)
    ensures var pen := TitledPen(title, shown);
            Stamped(pen.(y := pen.y - 22), v) == TitledPen(title, shown + [v])
  {
    assert TitledLayout(title, shown + [v]) ==
           TitledLayout(title, shown) + [Placed(72, 728 - 22 * |shown|, 10, v)];
  }

  /** The content stream of a titled page, but for its end. */
  method ShowTitled(title: string, lines: seq<string>) returns (content: seq<string>, ghost pieces: seq<Piece>)
    ensures Shows(content, pieces, TitledPen(Seen(title), AsRead(lines)))
  {
    content, pieces := ShowTitle(title);
    assert AsRead(lines[..0]) == [];
    for k := 0 to |lines|
      invariant Shows(content, pieces, TitledPen(Seen(title), AsRead(lines[..k])))
    {
      SeenSnoc(lines, k);
      content, pieces := TitledLine(content, Seen(title), lines[k], pieces, AsRead(lines[..k]));
    }
    assert lines[..|lines|] == lines;
  }

  /** The title. */
  method ShowTitle(title: string) returns (content: seq<string>, ghost pieces: seq<Piece>)
    ensures Shows(content, pieces, TitledPen(Seen(title), []))
  {
    content, pieces := OpenTitled();
    content, pieces := ShowLine(content, title, pieces, CORNER);
    content, pieces := SizeTen(content, pieces, Stamped(CORNER, Seen(title)));
    TitlePen(Seen(title));
  }

  /** The pen at the corner of a titled page. */
  const CORNER := Pen(true, 72, 750, 18, [], [])

  lemma {:induction false} TitlePen(v: string)
    ensures Stamped(CORNER, v).(size := 10) == TitledPen(v, [])
  {
    assert TitledLayout(v, []) == [Placed(72, 750, 18, v)];
  }

  method OpenTitled() returns (content: seq<string>, ghost pieces: seq<Piece>)
    ensures Shows(content, pieces, CORNER)
  {
    Sizes();
    Corners();
    content, pieces := Open("18", "72", "750", 18, 72, 750);
  }

  method SizeTen(content: seq<string>, ghost pieces: seq<Piece>, ghost pen: Pen)
    returns (r: seq<string>, ghost more: seq<Piece>)
    requires Shows(content, pieces, pen) && pen.operands == []
    ensures Shows(r, more, pen.(size := 10))
  {
    Sizes();
    r, more := Size(content, "10", 10, pieces, pen);
  }

  /** One line of a titled page: a step, and the line. */
  method TitledLine(content: seq<string>, ghost title: string, line: string, ghost pieces: seq<Piece>,
                    ghost shown: seq<string>)
    returns (r: seq<string>, ghost more: seq<Piece>)
    requires Shows(content, pieces, TitledPen(title, shown))
    ensures Shows(r, more, TitledPen(title, shown + [Seen(line)]))
  {
    ghost var pen := TitledPen(title, shown);
    Steps();
    r, more := StepDown(content, "-22", -22, pieces, pen);
    r, more := ShowLine(r, line, more, pen.(y := pen.y - 22));
    TitledGrows(title, shown, Seen(line));
  }

  /** `create_simple_pdf`: a reader of the printed file finds the title and then the lines, in order, each one where its
      layout puts it. */
  method CreateSimplePdf(title: string, lines: seq<string>) returns (pdf: string)
    ensures |pdf| < TEN_TO_10 ==> ReadPage(pdf) == Some(TitledLayout(Seen(title), AsRead(lines)))
    ensures |pdf| < TEN_TO_10 ==> PageStrings(pdf) == Some(AsRead([title] + lines))
  {
    var content;
    ghost var pieces;
    ghost var pen := TitledPen(Seen(title), AsRead(lines));
    content, pieces := ShowTitled(title, lines);
    content, pieces := Close(content, pieces, pen);
    pdf := WritePage(content, pieces, pen.(inText := false));
    TitleIsRead(title, lines);
  }

  lemma {:induction false} TitleIsRead(title: string, lines: seq<string>)
    ensures Texts(TitledLayout(Seen(title), AsRead(lines))) == AsRead([title] + lines)
  {
    assert AsRead([title] + lines) == [Seen(title)] + AsRead(lines);
  }

  /** The page shows a list of lines unchanged exactly when all of them are Latin-1 text without a carriage return. */
  lemma {:induction false} LinesSurviveIff(lines: seq<string>)
    ensures AsRead(lines) == lines
       <==> forall k :: 0 <= k < |lines| ==>
                          (forall i :: 0 <= i < |lines[k]| ==> lines[k][i] as int < 256 && lines[k][i] != '\r')
  {
    forall k | 0 <= k < |lines|
      ensures AsRead(lines)[k] == lines[k]
         <==> (forall i :: 0 <= i < |lines[k]| ==> lines[k][i] as int < 256 && lines[k][i] != '\r')
    {
      LineSurvivesIff(lines[k]);
    }
  }
}
