/** The PDF container both report writers print, and a reader that follows it as ISO 32000-1 describes:
    from the tail's byte offset (section 7.5.5) to the cross-reference table with its 20-byte entries
    (section 7.5.4) to the objects, and into a stream by its /Length alone (section 7.3.8). */
module PdfFile {

  import opened Wrappers
  import opened Decimal
  import opened PdfText

  // ---------------------------------------------------------------- what is written

  const HEADER := "%PDF-1.4\n"

  function ObjectBytes(i: nat, obj: string): string {
    Print(i) + (" 0 obj\n" + (obj + "\nendobj\n"))
  }

  function Entry(offset: nat): string { Print10(offset) + " 00000 n \n" }

  const FREE_ENTRY := "0000000000 65535 f \n"

  function XrefHead(n: nat): string { "xref\n0 " + (Print(n) + "\n") }

  function Trailer(n: nat, xref: nat): string {
    ("trailer\n<< /Size " + (Print(n) + " /Root 1 0 R >>\n")) + ("startxref\n" + (Print(xref) + "\n%%EOF"))
  }

  // ---------------------------------------------------------------- the reader

  /** `w` stands in `s` at position `p`. */
  predicate At(s: string, p: nat, w: string) {
    p + |w| <= |s| && forall k :: 0 <= k < |w| ==> w[k] == s[p + k]
  }

  /** The start of the line that ends just before `e`. */
  function LineStart(s: string, e: nat): (b: nat)
    requires e <= |s|
    ensures b <= e
  {
    if e == 0 || s[e - 1] == '\n' then e else LineStart(s, e - 1)
  }

  /** The byte offset between the tail's `startxref` and `%%EOF` lines. */
  function ReadStartXref(s: string): Option<nat> {
    if |s| < 6 || !At(s, |s| - 6, "\n%%EOF") then None
    else
      var e := |s| - 6;
      var b := LineStart(s, e);
      if b < 10 || !At(s, b - 10, "startxref\n") || b == e || !AllDigits(s[b..e]) then None
      else Some(Value(s[b..e]))
  }

  /** The number of entries and the position of the first one. */
  function ReadXrefHead(s: string, x: nat): Option<(nat, nat)> {
    if !At(s, x, "xref\n0 ") then None
    else match Read(s, x + 7)
         case None => None
         case Some((count, p)) => if At(s, p, "\n") then Some((count, p + 1)) else None
  }

  /** The offset in the in-use entry for object `i` of a table whose entries start at `base`. */
  function ReadEntry(s: string, base: nat, i: nat): Option<nat> {
    var p := base + 20 * i;
    if p + 20 > |s| || !AllDigits(s[p..p + 10]) || !At(s, p + 10, " 00000 n \n") then None
    else Some(Value(s[p..p + 10]))
  }

  predicate TrailerAgrees(s: string, p: nat, count: nat) {
    At(s, p, "trailer\n<< /Size ") &&
    match Read(s, p + 17)
    case None => false
    case Some((n, q)) => n == count && At(s, q, " /Root 1 0 R >>\n") && At(s, q + 16, "startxref\n")
  }

  /** A table at `x` whose free entry and trailer are in place. */
  function ReadTableAt(s: string, x: nat): Option<(nat, nat, nat)> {
    match ReadXrefHead(s, x)
    case None => None
    case Some((count, base)) =>
      if At(s, base, FREE_ENTRY) && TrailerAgrees(s, base + 20 * count, count) then Some((x, count, base)) else None
  }

  /** Position and entry count of a well-formed cross-reference table. */
  function ReadTable(s: string): Option<(nat, nat, nat)> {
    match ReadStartXref(s)
    case None => None
    case Some(x) => ReadTableAt(s, x)
  }

  /** The object that starts at `offset`, must be number `i`, and ends before `e`. */
  function ReadObject(s: string, offset: nat, i: nat, e: nat): Option<string> {
    match Read(s, offset)
    case None => None
    case Some((n, p)) =>
      if n == i && At(s, p, " 0 obj\n") && p + 15 <= e && At(s, e - 8, "\nendobj\n")
      then Some(s[p + 7..e - 8]) else None
  }

  /** Where object `i` ends: at the next entry's offset, the last one at the table. */
  function ReadEnd(s: string, xref: nat, count: nat, base: nat, i: nat): Option<nat> {
    if i + 1 < count then ReadEntry(s, base, i + 1) else Some(xref)
  }

  /** Object `i`, from its entry to the next one. */
  function ReadEntryObject(s: string, xref: nat, count: nat, base: nat, i: nat): Option<string> {
    match (ReadEntry(s, base, i), ReadEnd(s, xref, count, base, i))
    case (Some(offset), Some(end)) => ReadObject(s, offset, i, end)
    case _ => None
  }

  /** Objects `i` to `count - 1`. */
  function ReadObjects(s: string, xref: nat, count: nat, base: nat, i: nat): Option<seq<string>>
    decreases count - i
  {
    if i >= count then Some([])
    else
      match (ReadEntryObject(s, xref, count, base, i), ReadObjects(s, xref, count, base, i + 1))
      case (Some(obj), Some(rest)) => Some([obj] + rest)
      case _ => None
  }

  function ReadPdf(s: string): Option<seq<string>> {
    match ReadTable(s)
    case None => None
    case Some((xref, count, base)) => ReadObjects(s, xref, count, base, 1)
  }

  /** The bytes of a stream whose /Length and first keyword have been read. */
  function ReadStreamBytes(s: string, q: nat, length: nat): Option<string> {
    if At(s, q, " >>\nstream\n") && q + 11 + length <= |s| && At(s, q + 11 + length, "\nendstream")
    then Some(s[q + 11..q + 11 + length]) else None
  }

  /** A stream object's dictionary and bytes at `p`. */
  function ReadStreamObject(s: string, p: nat): Option<string> {
    if !At(s, p, "<< /Length ") then None
    else match Read(s, p + 11)
         case None => None
         case Some((length, q)) => ReadStreamBytes(s, q, length)
  }

  /** The bytes of the stream object `i` at `offset`, cut out by /Length alone. */
  function ReadStreamAt(s: string, offset: nat, i: nat): Option<string> {
    match Read(s, offset)
    case None => None
    case Some((n, p)) => if n != i || !At(s, p, " 0 obj\n") then None else ReadStreamObject(s, p + 7)
  }

  function ReadStream(s: string, i: nat): Option<string> {
    match ReadTable(s)
    case None => None
    case Some((_, count, base)) =>
      match ReadEntry(s, base, i)
      case None => None
      case Some(offset) => ReadStreamAt(s, offset, i)
  }

  // ---------------------------------------------------------------- placing strings

  lemma AtSlice(s: string, p: nat, w: string)
    requires At(s, p, w)
    ensures s[p..p + |w|] == w
  {}

  lemma AtSplit(s: string, p: nat, u: string, v: string)
    requires At(s, p, u + v)
    ensures At(s, p, u) && At(s, p + |u|, v)
  {
    var w := u + v;
    assert forall k :: 0 <= k < |u| ==> u[k] == w[k];
    assert forall k :: 0 <= k < |v| ==> v[k] == w[|u| + k];
  }

  lemma AtAppend(s: string, p: nat, w: string, t: string)
    requires At(s, p, w)
    ensures At(s + t, p, w)
  {}

  lemma AtEnd(s: string, w: string)
    ensures At(s + w, |s|, w)
  {}

  lemma AtInside(s: string, p: nat, w: string, q: nat, v: string)
    requires At(s, p, w) && At(w, q, v)
    ensures At(s, p + q, v)
  {
    forall k | 0 <= k < |v| ensures v[k] == s[p + q + k] {
      assert w[q + k] == s[p + (q + k)];
    }
  }

  /** A printed numeral followed by a non-digit reads back wherever it stands. */
  lemma NumeralAt(s: string, p: nat, n: nat, after: string)
    requires At(s, p, Print(n) + after) && after != "" && !IsDigit(after[0])
    ensures Read(s, p) == Some((n, p + |Print(n)|)) && At(s, p + |Print(n)|, after)
  {
    AtSplit(s, p, Print(n), after);
    AtSlice(s, p, Print(n));
    assert after[0] == s[p + |Print(n)| + 0];
    ReadBack(s, p, n);
  }

  // ---------------------------------------------------------------- any file laid out this way reads back

  /** Object `i` starts at `starts[i - 1]` and ends where the next one, or the table, starts. */
  ghost predicate ObjectPlaced(s: string, objs: seq<string>, starts: seq<nat>, i: nat)
    requires 1 <= i <= |objs| < |starts|
  {
    && At(s, starts[i - 1], ObjectBytes(i, objs[i - 1]))
    && starts[i] == starts[i - 1] + |ObjectBytes(i, objs[i - 1])|
  }

  ghost predicate ObjectsLaidOut(s: string, objs: seq<string>, starts: seq<nat>) {
    |starts| == |objs| + 1 && forall i :: 1 <= i <= |objs| ==> ObjectPlaced(s, objs, starts, i)
  }

  ghost predicate EntryPlaced(s: string, base: nat, starts: seq<nat>, i: nat)
    requires 1 <= i < |starts|
  {
    At(s, base + 20 * i, Entry(starts[i - 1])) && |Print10(starts[i - 1])| == 10
  }

  ghost predicate EntriesLaidOut(s: string, base: nat, starts: seq<nat>) {
    forall i :: 1 <= i < |starts| ==> EntryPlaced(s, base, starts, i)
  }

  ghost predicate TableLaidOut(s: string, n: nat, x: nat, base: nat) {
    && At(s, x, XrefHead(n)) && base == x + |XrefHead(n)| && At(s, base, FREE_ENTRY)
    && At(s, base + 20 * n, Trailer(n, x)) && |s| == base + 20 * n + |Trailer(n, x)|
  }

  lemma {:induction false} LineStartAt(s: string, b: nat, e: nat)
    requires 0 < b <= e <= |s| && s[b - 1] == '\n' && AllDigits(s[b..e])
    ensures LineStart(s, e) == b
    decreases e
  {
    if b < e {
      assert s[e - 1] == s[b..e][e - 1 - b];
      assert s[b..e - 1] == s[b..e][..e - 1 - b];
      LineStartAt(s, b, e - 1);
    }
  }

  lemma TailReads(s: string, p: nat, x: nat)
    requires At(s, p, "startxref\n" + (Print(x) + "\n%%EOF")) && |s| == p + 10 + |Print(x)| + 6
    ensures ReadStartXref(s) == Some(x) && At(s, p, "startxref\n")
  {
    AtSplit(s, p, "startxref\n", Print(x) + "\n%%EOF");
    var b := p + 10;
    AtSplit(s, b, Print(x), "\n%%EOF");
    var e := |s| - 6;
    AtSlice(s, b, Print(x));
    assert "startxref\n"[9] == s[p + 9];
    LineStartAt(s, b, e);
    ValueOfPrint(x);
  }

  lemma TrailerReads(s: string, p: nat, n: nat, x: nat)
    requires At(s, p, Trailer(n, x)) && |s| == p + |Trailer(n, x)|
    ensures TrailerAgrees(s, p, n) && ReadStartXref(s) == Some(x)
  {
    var dict, root, tail := "trailer\n<< /Size ", " /Root 1 0 R >>\n", "startxref\n" + (Print(x) + "\n%%EOF");
    var q := p + 17 + |Print(n)|;
    AtSplit(s, p, dict + (Print(n) + root), tail);
    AtSplit(s, p, dict, Print(n) + root);
    NumeralAt(s, p + 17, n, root);
    TailReads(s, q + 16, x);
  }

  lemma XrefHeadReads(s: string, x: nat, n: nat)
    requires At(s, x, XrefHead(n))
    ensures ReadXrefHead(s, x) == Some((n, x + |XrefHead(n)|))
  {
    AtSplit(s, x, "xref\n0 ", Print(n) + "\n");
    NumeralAt(s, x + 7, n, "\n");
  }

  /** The tail leads to the table. */
  lemma TableReads(s: string, n: nat, x: nat, base: nat)
    requires TableLaidOut(s, n, x, base)
    ensures ReadTable(s) == Some((x, n, base))
  {
    TableReadsAt(s, n, x, base);
    TrailerReads(s, base + 20 * n, n, x);
  }

  lemma TableReadsAt(s: string, n: nat, x: nat, base: nat)
    requires TableLaidOut(s, n, x, base)
    ensures ReadTableAt(s, x) == Some((x, n, base))
  {
    XrefHeadReads(s, x, n);
    TrailerReads(s, base + 20 * n, n, x);
  }

  lemma EntryDigitsRead(s: string, base: nat, i: nat, digits: string)
    requires At(s, base + 20 * i, digits + " 00000 n \n") && |digits| == 10 && AllDigits(digits)
    ensures ReadEntry(s, base, i) == Some(Value(digits))
  {
    var p := base + 20 * i;
    AtSplit(s, p, digits, " 00000 n \n");
    AtSlice(s, p, digits);
  }

  lemma EntryReads(s: string, base: nat, i: nat, offset: nat)
    requires At(s, base + 20 * i, Entry(offset)) && |Print10(offset)| == 10
    ensures ReadEntry(s, base, i) == Some(offset)
  {
    PaddedRoundTrip(offset);
    EntryDigitsRead(s, base, i, Print10(offset));
  }

  lemma ObjectHeadReads(s: string, offset: nat, i: nat, obj: string)
    requires At(s, offset, ObjectBytes(i, obj))
    ensures var p := offset + |Print(i)|;
            && Read(s, offset) == Some((i, p)) && At(s, p, " 0 obj\n")
            && At(s, p + 7, obj) && At(s, p + 7 + |obj|, "\nendobj\n")
  {
    NumeralAt(s, offset, i, " 0 obj\n" + (obj + "\nendobj\n"));
    var p := offset + |Print(i)|;
    AtSplit(s, p, " 0 obj\n", obj + "\nendobj\n");
    AtSplit(s, p + 7, obj, "\nendobj\n");
  }

  lemma ObjectReads(s: string, offset: nat, i: nat, obj: string)
    requires At(s, offset, ObjectBytes(i, obj))
    ensures ReadObject(s, offset, i, offset + |ObjectBytes(i, obj)|) == Some(obj)
  {
    ObjectHeadReads(s, offset, i, obj);
    AtSlice(s, offset + |Print(i)| + 7, obj);
  }

  lemma {:induction false} EntryReadsPlaced(s: string, base: nat, starts: seq<nat>, i: nat)
    requires EntriesLaidOut(s, base, starts) && 1 <= i < |starts|
    ensures ReadEntry(s, base, i) == Some(starts[i - 1])
  {
    assert EntryPlaced(s, base, starts, i);
    EntryReads(s, base, i, starts[i - 1]);
  }

  lemma {:induction false} ObjectReadsPlaced(s: string, objs: seq<string>, starts: seq<nat>, i: nat)
    requires ObjectsLaidOut(s, objs, starts) && 1 <= i <= |objs|
    ensures ReadObject(s, starts[i - 1], i, starts[i]) == Some(objs[i - 1])
  {
    assert ObjectPlaced(s, objs, starts, i);
    ObjectReads(s, starts[i - 1], i, objs[i - 1]);
  }

  lemma {:induction false} EndReads(s: string, objs: seq<string>, starts: seq<nat>, base: nat, i: nat)
    requires |starts| == |objs| + 1 && EntriesLaidOut(s, base, starts) && 1 <= i <= |objs|
    ensures ReadEnd(s, starts[|objs|], |objs| + 1, base, i) == Some(starts[i])
  {
    if i < |objs| { EntryReadsPlaced(s, base, starts, i + 1); }
  }

  lemma {:induction false} EntryObjectReads(s: string, objs: seq<string>, starts: seq<nat>, base: nat, i: nat)
    requires ObjectsLaidOut(s, objs, starts) && EntriesLaidOut(s, base, starts) && 1 <= i <= |objs|
    ensures ReadEntryObject(s, starts[|objs|], |objs| + 1, base, i) == Some(objs[i - 1])
  {
    EntryReadsPlaced(s, base, starts, i);
    EndReads(s, objs, starts, base, i);
    ObjectReadsPlaced(s, objs, starts, i);
  }

  lemma {:induction false} ObjectsRead(s: string, objs: seq<string>, starts: seq<nat>, base: nat, i: nat)
    requires ObjectsLaidOut(s, objs, starts) && EntriesLaidOut(s, base, starts) && 1 <= i <= |objs| + 1
    ensures ReadObjects(s, starts[|objs|], |objs| + 1, base, i) == Some(objs[i - 1..])
    decreases |objs| + 1 - i
  {
    if i <= |objs| {
      EntryObjectReads(s, objs, starts, base, i);
      ObjectsRead(s, objs, starts, base, i + 1);
      assert objs[i - 1..] == [objs[i - 1]] + objs[i..];
    }
  }

  function StreamObject(stream: string): string {
    "<< /Length " + (Print(|stream|) + (" >>\nstream\n" + (stream + "\nendstream")))
  }

  lemma StreamBodyReads(s: string, p: nat, stream: string)
    requires At(s, p, StreamObject(stream))
    ensures var q := p + 11 + |Print(|stream|)|;
            && Read(s, p + 11) == Some((|stream|, q)) && At(s, q, " >>\nstream\n")
            && At(s, q + 11, stream) && At(s, q + 11 + |stream|, "\nendstream")
            && At(s, p, "<< /Length ")
  {
    var rest := " >>\nstream\n" + (stream + "\nendstream");
    AtSplit(s, p, "<< /Length ", Print(|stream|) + rest);
    NumeralAt(s, p + 11, |stream|, rest);
    var q := p + 11 + |Print(|stream|)|;
    AtSplit(s, q, " >>\nstream\n", stream + "\nendstream");
    AtSplit(s, q + 11, stream, "\nendstream");
  }

  lemma StreamBytesRead(s: string, q: nat, stream: string)
    requires At(s, q, " >>\nstream\n") && At(s, q + 11, stream) && At(s, q + 11 + |stream|, "\nendstream")
    ensures ReadStreamBytes(s, q, |stream|) == Some(stream)
  {
    AtSlice(s, q + 11, stream);
  }

  lemma StreamObjectReads(s: string, p: nat, stream: string)
    requires At(s, p, StreamObject(stream))
    ensures ReadStreamObject(s, p) == Some(stream)
  {
    StreamBodyReads(s, p, stream);
    StreamBytesRead(s, p + 11 + |Print(|stream|)|, stream);
  }

  lemma StreamReadsAt(s: string, offset: nat, i: nat, obj: string, stream: string)
    requires At(s, offset, ObjectBytes(i, obj))
    requires forall p :: At(s, p, obj) ==> ReadStreamObject(s, p) == Some(stream)
    ensures ReadStreamAt(s, offset, i) == Some(stream)
  {
    ObjectHeadReads(s, offset, i, obj);
    var p := offset + |Print(i)|;
    StreamAtReads(s, offset, i, p, stream);
  }

  lemma StreamAtReads(s: string, offset: nat, i: nat, p: nat, stream: string)
    requires Read(s, offset) == Some((i, p)) && At(s, p, " 0 obj\n") && ReadStreamObject(s, p + 7) == Some(stream)
    ensures ReadStreamAt(s, offset, i) == Some(stream)
  {}

  /** Everything the reader relies on: object `i` starts at `starts[i - 1]`, the table at the last start, and
      its entries at `base`. */
  ghost predicate LaidOut(s: string, objs: seq<string>, starts: seq<nat>, base: nat) {
    && ObjectsLaidOut(s, objs, starts) && EntriesLaidOut(s, base, starts)
    && TableLaidOut(s, |objs| + 1, starts[|objs|], base)
  }

  /** A file laid out this way gives back every object, starting from its tail. */
  lemma {:induction false} ObjectsRoundTrip(s: string, objs: seq<string>, starts: seq<nat>, base: nat)
    requires LaidOut(s, objs, starts, base)
    ensures ReadPdf(s) == Some(objs)
  {
    TableReads(s, |objs| + 1, starts[|objs|], base);
    ObjectsRead(s, objs, starts, base, 1);
  }

  /** The entry of an object leads exactly to its "i 0 obj". */
  lemma {:induction false} EntryLeadsToObject(s: string, objs: seq<string>, starts: seq<nat>, base: nat, i: nat)
    requires LaidOut(s, objs, starts, base) && 1 <= i <= |objs|
    ensures ReadTable(s) == Some((starts[|objs|], |objs| + 1, base)) && ReadEntry(s, base, i) == Some(starts[i - 1])
    ensures At(s, starts[i - 1], ObjectBytes(i, objs[i - 1]))
  {
    TableReads(s, |objs| + 1, starts[|objs|], base);
    EntryReadsPlaced(s, base, starts, i);
    assert ObjectPlaced(s, objs, starts, i);
  }

  /** Whatever bytes a stream holds, even "endstream" or "endobj", its /Length alone cuts it out. */
  lemma {:induction false} StreamRoundTrip(s: string, objs: seq<string>, starts: seq<nat>, base: nat, i: nat,
                                           stream: string)
    requires LaidOut(s, objs, starts, base) && 1 <= i <= |objs| && objs[i - 1] == StreamObject(stream)
    ensures ReadStream(s, i) == Some(stream)
  {
    EntryLeadsToObject(s, objs, starts, base, i);
    forall p | At(s, p, objs[i - 1]) ensures ReadStreamObject(s, p) == Some(stream) { StreamObjectReads(s, p, stream); }
    StreamReadsAt(s, starts[i - 1], i, objs[i - 1], stream);
  }

  // ---------------------------------------------------------------- the writer

  /** An in-use entry is 20 bytes wide exactly for offsets below 10^10. */
  lemma EntryWidth(offset: nat)
    ensures |Entry(offset)| == 20 <==> offset < TEN_TO_10
    ensures |Entry(offset)| == |Print10(offset)| + 10
  {
    PaddedRoundTrip(offset);
  }

  lemma {:induction false} PlacedAfterAppend(s: string, t: string, objs: seq<string>, starts: seq<nat>,
                                             more: seq<nat>, i: nat)
    requires 1 <= i <= |objs| && i < |starts| && |objs| < |starts + more|
    requires At(s, starts[i - 1], ObjectBytes(i, objs[i - 1]))
    requires starts[i] == starts[i - 1] + |ObjectBytes(i, objs[i - 1])|
    ensures ObjectPlaced(s + t, objs, starts + more, i)
  {
    AtAppend(s, starts[i - 1], ObjectBytes(i, objs[i - 1]), t);
  }

  /** Prints the objects one after the other, recording where each starts. */
  method WriteBody(objs: seq<string>) returns (pdf: string, offsets: seq<nat>, ghost starts: seq<nat>)
    ensures HEADER <= pdf && ObjectsLaidOut(pdf, objs, starts) && starts[|objs|] == |pdf|
    ensures |offsets| == |objs| + 1 && forall i :: 1 <= i <= |objs| ==> offsets[i] == starts[i - 1] <= |pdf|
  {
    pdf, offsets := HEADER, [0];
    starts := [|pdf|];
    var index := 1;
    while index <= |objs|
      invariant 1 <= index <= |objs| + 1 && |offsets| == |starts| == index && starts[index - 1] == |pdf|
      invariant HEADER <= pdf
      invariant forall i :: 1 <= i < index ==> offsets[i] == starts[i - 1] <= |pdf|
      invariant ObjectsLaidOut(pdf, objs[..index - 1], starts)
    {
      var part := ObjectBytes(index, objs[index - 1]);
      offsets := offsets + [|pdf|];
      BodyGrows(pdf, part, objs, starts, index);
      starts := starts + [|pdf| + |part|];
      pdf := pdf + part;
      index := index + 1;
    }
    assert objs[..|objs|] == objs;
  }

  lemma {:induction false} BodyGrows(pdf: string, part: string, objs: seq<string>, starts: seq<nat>, index: nat)
    requires 1 <= index <= |objs| && |starts| == index && starts[index - 1] == |pdf|
    requires ObjectsLaidOut(pdf, objs[..index - 1], starts) && part == ObjectBytes(index, objs[index - 1])
    ensures ObjectsLaidOut(pdf + part, objs[..index], starts + [|pdf| + |part|])
  {
    var next := [|pdf| + |part|];
    forall i | 1 <= i <= index ensures ObjectPlaced(pdf + part, objs[..index], starts + next, i) {
      if i < index {
        assert ObjectPlaced(pdf, objs[..index - 1], starts, i);
        PlacedAfterAppend(pdf, part, objs[..index], starts, next, i);
      } else {
        AtEnd(pdf, part);
      }
    }
  }

  /** The in-use entry of object `i` stands in a string of entries, all 20 bytes wide. */
  ghost predicate EntryListed(entries: string, offsets: seq<nat>, i: nat)
    requires 1 <= i < |offsets|
  {
    At(entries, 20 * (i - 1), Entry(offsets[i])) && |Print10(offsets[i])| == 10
  }

  /** Prints one in-use entry an offset. */
  method WriteEntries(offsets: seq<nat>) returns (entries: string)
    requires |offsets| > 0
    ensures (forall i :: 1 <= i < |offsets| ==> offsets[i] < TEN_TO_10) ==>
              |entries| == 20 * (|offsets| - 1) && forall i :: 1 <= i < |offsets| ==> EntryListed(entries, offsets, i)
  {
    entries := "";
    var k := 1;
    while k < |offsets|
      invariant 1 <= k <= |offsets|
      invariant (forall i :: 1 <= i < |offsets| ==> offsets[i] < TEN_TO_10) ==>
                  |entries| == 20 * (k - 1) && forall i :: 1 <= i < k ==> EntryListed(entries, offsets, i)
    {
      if forall i :: 1 <= i < |offsets| ==> offsets[i] < TEN_TO_10 {
        EntriesGrow(entries, offsets, k);
      }
      entries := entries + Entry(offsets[k]);
      k := k + 1;
    }
  }

  lemma {:induction false} EntriesGrow(entries: string, offsets: seq<nat>, k: nat)
    requires 1 <= k < |offsets| && offsets[k] < TEN_TO_10 && |entries| == 20 * (k - 1)
    requires forall i :: 1 <= i < k ==> EntryListed(entries, offsets, i)
    ensures |entries + Entry(offsets[k])| == 20 * k
    ensures forall i :: 1 <= i <= k ==> EntryListed(entries + Entry(offsets[k]), offsets, i)
  {
    EntryWidth(offsets[k]);
    forall i | 1 <= i <= k ensures EntryListed(entries + Entry(offsets[k]), offsets, i) {
      if i < k {
        assert EntryListed(entries, offsets, i);
        AtAppend(entries, 20 * (i - 1), Entry(offsets[i]), Entry(offsets[k]));
      } else {
        AtEnd(entries, Entry(offsets[k]));
      }
    }
  }

  /** Five strings in a row. */
  lemma FiveParts(s: string, a: string, b: string, c: string, d: string, e: string)
    requires s == a + (b + (c + (d + e)))
    ensures At(s, 0, a) && At(s, |a|, b) && At(s, |a| + |b|, c) && At(s, |a| + |b| + |c|, d)
    ensures At(s, |a| + |b| + |c| + |d|, e) && |s| == |a| + |b| + |c| + |d| + |e|
  {
    var de := d + e;
    var cde := c + de;
    AtEnd(a, b + cde);
    AtSplit(s, |a|, b, cde);
    AtSplit(s, |a| + |b|, c, de);
    AtSplit(s, |a| + |b| + |c|, d, e);
  }

  lemma {:induction false} ObjectsStayPlaced(s: string, t: string, objs: seq<string>, starts: seq<nat>)
    requires ObjectsLaidOut(s, objs, starts)
    ensures ObjectsLaidOut(s + t, objs, starts)
  {
    forall i | 1 <= i <= |objs| ensures ObjectPlaced(s + t, objs, starts, i) {
      assert ObjectPlaced(s, objs, starts, i);
      AtAppend(s, starts[i - 1], ObjectBytes(i, objs[i - 1]), t);
    }
  }

  lemma {:induction false} EntriesPlaced(s: string, base: nat, entries: string, offsets: seq<nat>, starts: seq<nat>)
    requires At(s, base + 20, entries) && |offsets| == |starts|
    requires forall i :: 1 <= i < |offsets| ==> EntryListed(entries, offsets, i) && offsets[i] == starts[i - 1]
    ensures EntriesLaidOut(s, base, starts)
  {
    forall i | 1 <= i < |starts| ensures EntryPlaced(s, base, starts, i) {
      assert EntryListed(entries, offsets, i);
      AtInside(s, base + 20, entries, 20 * (i - 1), Entry(offsets[i]));
    }
  }

  /** The container both report writers print. For every list of objects, as long as the table starts below
      10^10, the file is laid out so that its reader recovers everything. */
  method WriteObjects(objs: seq<string>) returns (pdf: string, ghost starts: seq<nat>, ghost base: nat)
    ensures HEADER <= pdf && |starts| == |objs| + 1 && starts[|objs|] <= |pdf|
    ensures starts[|objs|] < TEN_TO_10 ==> LaidOut(pdf, objs, starts, base)
    ensures |pdf| < TEN_TO_10 ==> ReadPdf(pdf) == Some(objs)
  {
    var body, offsets;
    body, offsets, starts := WriteBody(objs);
    var xref, n := |body|, |objs| + 1;
    var head := XrefHead(n);
    var entries := WriteEntries(offsets);
    var trailer := Trailer(n, xref);
    var table := head + (FREE_ENTRY + (entries + trailer));
    pdf := body + table;
    base := xref + |head|;
    FiveParts(pdf, body, head, FREE_ENTRY, entries, trailer);
    if xref < TEN_TO_10 {
      ObjectsStayPlaced(body, table, objs, starts);
      assert |FREE_ENTRY| == 20;
      EntriesPlaced(pdf, base, entries, offsets, starts);
      ObjectsRoundTrip(pdf, objs, starts, base);
    }
  }
}
