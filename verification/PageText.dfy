/** What a page shows: an interpreter of the text operators of a content stream (ISO 32000-1, sections 9.3 and 9.4),
    which says where each string is shown and how large. */
module PageText {

  import opened Wrappers
  import opened Decimal
  import opened PdfText

  /** A string shown at a position, in a font size. */
  datatype Placed = Placed(x: int, y: int, size: int, text: string)

  /** Inside or outside of a text object, the start of the current line, the font size, the operands waiting for their
      operator, and what has been shown. */
  datatype Pen = Pen(inText: bool, x: int, y: int, size: int, operands: seq<Token>, shown: seq<Placed>)

  const START := Pen(false, 0, 0, 0, [], [])

  function Minus(n: int): int { -n }

  /** A whole number. */
  function Whole(t: Token): Option<int> {
    match t
    case Text(_) => None
    case Word(w) =>
      if w != "" && AllDigits(w) then Some(Value(w))
      else if |w| > 1 && w[0] == '-' && AllDigits(w[1..]) then Some(Minus(Value(w[1..])))
      else None
  }

  /** Two whole operands. */
  function Two(ts: seq<Token>): Option<(int, int)> {
    if |ts| != 2 then None
    else
      match (Whole(ts[0]), Whole(ts[1]))
      case (Some(a), Some(b)) => Some((a, b))
      case _ => None
  }

  /** What an operator does; `None` if it is out of place or its operands are wrong. */
  function Operate(p: Pen, operator: string): Option<Pen> {
    var q := p.(operands := []);
    if operator == "BT" then
      if p.inText || p.operands != [] then None else Some(q.(inText := true, x := 0, y := 0))
    else if operator == "ET" then
      if !p.inText || p.operands != [] then None else Some(q.(inText := false))
    else if operator == "Tf" then
      if |p.operands| == 2 && p.operands[0] == Word("/F1") && Whole(p.operands[1]).Some?
      then Some(q.(size := Whole(p.operands[1]).value)) else None
    else if operator == "Td" then
      match Two(p.operands)
      case None => None
      case Some((dx, dy)) => if p.inText then Some(q.(x := p.x + dx, y := p.y + dy)) else None
    else
      if p.inText && p.size > 0 && |p.operands| == 1 && p.operands[0].Text?
      then Some(q.(shown := p.shown + [Placed(p.x, p.y, p.size, p.operands[0].v)])) else None
  }

  predicate IsOperator(w: string) { w in ["BT", "ET", "Tf", "Td", "Tj"] }

  function Draw(p: Pen, t: Token): Option<Pen> {
    if t.Word? && IsOperator(t.w) then Operate(p, t.w) else Some(p.(operands := p.operands + [t]))
  }

  function DrawFrom(p: Pen, ts: seq<Token>): Option<Pen>
    decreases |ts|
  {
    if ts == [] then Some(p)
    else
      match Draw(p, ts[0])
      case None => None
      case Some(q) => DrawFrom(q, ts[1..])
  }

  /** What a content stream shows; `None` if it is not well-formed. */
  function ShownOn(stream: string): Option<seq<Placed>> {
    match DrawFrom(START, Tokens(stream))
    case None => None
    case Some(p) => if p.inText || p.operands != [] then None else Some(p.shown)
  }

  // ---------------------------------------------------------------- one operator after another

  lemma {:induction false} DrawConcat(p: Pen, ts: seq<Token>, us: seq<Token>, q: Pen)
    requires DrawFrom(p, ts) == Some(q)
    ensures DrawFrom(p, ts + us) == DrawFrom(q, us)
    decreases |ts|
  {
    if ts == [] {
      assert ts + us == us;
    } else {
      assert (ts + us)[1..] == ts[1..] + us;
      DrawConcat(Draw(p, ts[0]).value, ts[1..], us, q);
    }
  }

  lemma DrawOne(p: Pen, a: Token)
    ensures DrawFrom(p, [a]) == Draw(p, a)
  {}

  lemma DrawTwo(p: Pen, a: Token, b: Token)
    requires Draw(p, a).Some?
    ensures DrawFrom(p, [a, b]) == Draw(Draw(p, a).value, b)
  {
    assert [a, b][1..] == [b];
    DrawOne(Draw(p, a).value, b);
  }

  /** Two operands and their operator. */
  lemma DrawOperator(p: Pen, a: Token, b: Token, operator: string)
    requires p.operands == [] && IsOperator(operator)
    requires !(a.Word? && IsOperator(a.w)) && !(b.Word? && IsOperator(b.w))
    ensures DrawFrom(p, [a, b, Word(operator)]) == Operate(p.(operands := [a, b]), operator)
  {
    var p1, p2 := p.(operands := [a]), p.(operands := [a, b]);
    assert p.operands + [a] == [a] && p1.operands + [b] == [a, b];
    assert [a, b, Word(operator)][1..] == [b, Word(operator)];
    DrawTwo(p1, b, Word(operator));
  }

  /** A string is shown where the line starts. */
  lemma ShowDraws(p: Pen, v: string)
    requires p.inText && p.size > 0 && p.operands == []
    ensures DrawFrom(p, [Text(v), Word("Tj")]) == Some(p.(shown := p.shown + [Placed(p.x, p.y, p.size, v)]))
  {
    DrawTwo(p, Text(v), Word("Tj"));
    assert [] + [Text(v)] == [Text(v)];
  }

  /** The next line starts `dx` to the right and `dy` up. */
  lemma MoveDraws(p: Pen, a: string, b: string, dx: int, dy: int)
    requires p.inText && p.operands == [] && !IsOperator(a) && !IsOperator(b)
    requires Whole(Word(a)) == Some(dx) && Whole(Word(b)) == Some(dy)
    ensures DrawFrom(p, [Word(a), Word(b), Word("Td")]) == Some(p.(x := p.x + dx, y := p.y + dy))
  {
    DrawOperator(p, Word(a), Word(b), "Td");
    MoveOperates(p.(operands := [Word(a), Word(b)]), dx, dy);
    assert p.(operands := [Word(a), Word(b)]).(operands := []) == p;
  }

  lemma MoveOperates(p: Pen, dx: int, dy: int)
    requires p.inText && Two(p.operands) == Some((dx, dy))
    ensures Operate(p, "Td") == Some(p.(operands := [], x := p.x + dx, y := p.y + dy))
  {}

  lemma FontDraws(p: Pen, b: string, size: int)
    requires p.operands == [] && !IsOperator(b) && Whole(Word(b)) == Some(size)
    ensures DrawFrom(p, [Word("/F1"), Word(b), Word("Tf")]) == Some(p.(size := size))
  {
    DrawOperator(p, Word("/F1"), Word(b), "Tf");
    FontOperates(p.(operands := [Word("/F1"), Word(b)]), b, size);
    assert p.(operands := [Word("/F1"), Word(b)]).(operands := []) == p;
  }

  lemma FontOperates(p: Pen, b: string, size: int)
    requires p.operands == [Word("/F1"), Word(b)] && Whole(Word(b)) == Some(size)
    ensures Operate(p, "Tf") == Some(p.(operands := [], size := size))
  {}

  lemma BeginDraws(p: Pen)
    requires !p.inText && p.operands == []
    ensures DrawFrom(p, [Word("BT")]) == Some(p.(inText := true, x := 0, y := 0))
  {
    DrawOne(p, Word("BT"));
  }

  lemma EndDraws(p: Pen)
    requires p.inText && p.operands == []
    ensures DrawFrom(p, [Word("ET")]) == Some(p.(inText := false))
  {
    DrawOne(p, Word("ET"));
  }

  // ---------------------------------------------------------------- the numbers the writers print

  /** The writers' whole numbers have up to three digits. */
  lemma OneDigit(a: nat)
    requires a < 10
    ensures Value([Digit(a)]) == a
  {
    assert [Digit(a)][..0] == "";
  }

  lemma TwoDigits(a: nat, b: nat)
    requires a < 10 && b < 10
    ensures Value([Digit(a), Digit(b)]) == 10 * a + b
  {
    assert [Digit(a), Digit(b)][..1] == [Digit(a)];
    OneDigit(a);
  }

  lemma ThreeDigits(a: nat, b: nat, c: nat)
    requires a < 10 && b < 10 && c < 10
    ensures Value([Digit(a), Digit(b), Digit(c)]) == 100 * a + 10 * b + c
  {
    assert [Digit(a), Digit(b), Digit(c)][..2] == [Digit(a), Digit(b)];
    TwoDigits(a, b);
  }

  lemma WholeOfTwo(w: string, a: nat, b: nat)
    requires a < 10 && b < 10
    requires w == [Digit(a), Digit(b)] || w == ['-', Digit(a), Digit(b)]
    ensures Whole(Word(w)) == Some(if |w| == 2 then 10 * a + b else -(10 * a + b))
  {
    TwoDigits(a, b);
    if |w| == 3 {
      assert !IsDigit(w[0]);
      assert w[1..] == [Digit(a), Digit(b)];
    }
  }

  lemma Digits()
    ensures Digit(0) == '0' && Digit(1) == '1' && Digit(2) == '2' && Digit(4) == '4' && Digit(5) == '5'
    ensures Digit(7) == '7' && Digit(8) == '8' && Digit(9) == '9'
  {}

  lemma Zero()
    ensures Whole(Word("0")) == Some(0)
  {
    Digits();
    OneDigit(0);
  }

  lemma Sizes()
    ensures Whole(Word("10")) == Some(10) && Whole(Word("15")) == Some(15) && Whole(Word("18")) == Some(18)
  {
    Digits();
    WholeOfTwo("10", 1, 0);
    WholeOfTwo("15", 1, 5);
    WholeOfTwo("18", 1, 8);
  }

  lemma Steps()
    ensures Whole(Word("-15")) == Some(-15) && Whole(Word("-19")) == Some(-19) && Whole(Word("-22")) == Some(-22)
  {
    Digits();
    WholeOfTwo("-15", 1, 5);
    WholeOfTwo("-19", 1, 9);
    WholeOfTwo("-22", 2, 2);
  }

  lemma Corners()
    ensures Whole(Word("54")) == Some(54) && Whole(Word("72")) == Some(72)
    ensures Whole(Word("748")) == Some(748) && Whole(Word("750")) == Some(750)
  {
    Digits();
    WholeOfTwo("54", 5, 4);
    WholeOfTwo("72", 7, 2);
    ThreeDigits(7, 4, 8);
    ThreeDigits(7, 5, 0);
  }
}
