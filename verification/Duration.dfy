/** Duration shorthand such as `1h30m`: the recognising expression, the scan that adds up the
    segments, and the decimal numbers in them. */
module Duration {
  import opened Text
  import opened Wrappers

  predicate Digit(c: char) {
    '0' <= c <= '9'
  }

  predicate Digits(s: string) {
    s != "" && forall c | c in s :: Digit(c)
  }

  /** `[hms]` under the `i` flag. */
  predicate Unit(c: char) {
    c in "hmsHMS"
  }

  function Seconds(unit: char): int {
    if unit == 'h' || unit == 'H' then 3600 else if unit == 'm' || unit == 'M' then 60 else 1
  }

  // ---- Decimal numbers ----

  function DigitValue(c: char): nat
    requires Digit(c)
  {
    c as int - '0' as int
  }

  function Natural(s: string): nat
    requires forall c | c in s :: Digit(c)
  {
    if s == "" then 0
    else
      assert s[|s| - 1] in s;
      10 * Natural(s[..|s| - 1]) + DigitValue(s[|s| - 1])
  }

  function Pow10(n: nat): (p: nat)
    ensures p > 0
  {
    if n == 0 then 1 else 10 * Pow10(n - 1)
  }

  /** `12` or `12.5`: the digits before the point, and after it if there is one. */
  datatype Decimal = Decimal(whole: string, frac: Option<string>)

  predicate ValidDecimal(d: Decimal) {
    Digits(d.whole) && (d.frac.Some? ==> Digits(d.frac.value))
  }

  function DecimalText(d: Decimal): string {
    d.whole + if d.frac.Some? then "." + d.frac.value else ""
  }

  /** The number itself, with no rounding. */
  function Value(d: Decimal): real
    requires ValidDecimal(d)
  {
    Natural(d.whole) as real + if d.frac.Some? then Natural(d.frac.value) as real / Pow10(|d.frac.value|) as real else 0.0
  }

  /** What a segment adds, in seconds. */
  function Weight(d: Decimal, unit: char): real
    requires ValidDecimal(d)
  {
    Value(d) * Seconds(unit) as real
  }

  // ---- `DURATION_RE` ----

  /** One round of the group: space, number, space, unit, space. */
  datatype Piece = Piece(lead: string, number: Decimal, mid: string, unit: char, trail: string)

  predicate ValidPiece(p: Piece) {
    AllSpace(p.lead) && ValidDecimal(p.number) && AllSpace(p.mid) && Unit(p.unit) && AllSpace(p.trail)
  }

  function Core(p: Piece): string {
    DecimalText(p.number) + (p.mid + [p.unit])
  }

  function Spell(pieces: seq<Piece>): string {
    if pieces == [] then "" else pieces[0].lead + (Core(pieces[0]) + (pieces[0].trail + Spell(pieces[1..])))
  }

  predicate AllValid(pieces: seq<Piece>) {
    forall i | 0 <= i < |pieces| :: ValidPiece(pieces[i])
  }

  /** What it means for the expression to match the whole of `s`. */
  predicate Decomposes(pieces: seq<Piece>, s: string) {
    pieces != [] && AllValid(pieces) && Spell(pieces) == s
  }

  ghost predicate Matches(s: string) {
    exists pieces :: Decomposes(pieces, s)
  }

  function Total(pieces: seq<Piece>): real
    requires AllValid(pieces)
  {
    if pieces == [] then 0.0 else Weight(pieces[0].number, pieces[0].unit) + Total(pieces[1..])
  }

  // ---- `DURATION_SEGMENT_RE` ----

  function DigitRun(s: string): (n: nat)
    ensures n <= |s| && (forall c | c in s[..n] :: Digit(c)) && (n < |s| ==> !Digit(s[n]))
  {
    if s == "" || !Digit(s[0]) then 0
    else
      var m := DigitRun(s[1..]);
      assert s[..m + 1] == [s[0]] + s[1..][..m];
      m + 1
  }

  /** A number at the start of `s`, read greedily; giving characters back could never help, as
      no digit or point can begin what must follow. */
  function NumberAt(s: string): Option<(Decimal, string)> {
    var n := DigitRun(s);
    if n == 0 then None
    else
      var rest := s[n..];
      if rest != "" && rest[0] == '.' && DigitRun(rest[1..]) > 0 then
        var m := DigitRun(rest[1..]);
        Some((Decimal(s[..n], Some(rest[1..][..m])), rest[1..][m..]))
      else Some((Decimal(s[..n], None), rest))
  }

  datatype Segment = Segment(number: Decimal, unit: char, rest: string)

  /** A segment at the start of `s`. */
  function SegmentAt(s: string): (r: Option<Segment>)
    ensures r.Some? ==> ValidDecimal(r.value.number) && Unit(r.value.unit) && |r.value.rest| < |s|
  {
    match NumberAt(s)
    case None => None
    case Some((number, more)) =>
      TrimStartShortens(more);
      var tail := TrimStart(more);
      if tail != "" && Unit(tail[0]) then Some(Segment(number, tail[0], tail[1..])) else None
  }

  lemma {:induction false} TrimStartShortens(s: string)
    ensures |TrimStart(s)| <= |s|
  {
    var pad := TrimStartSplits(s);
  }

  /** The next match of the global expression: the characters skipped before it, and it. */
  function Search(s: string): (r: Option<(string, Segment)>)
    ensures r.Some? ==> ValidDecimal(r.value.1.number) && Unit(r.value.1.unit) && |r.value.1.rest| < |s|
  {
    if SegmentAt(s).Some? then Some(("", SegmentAt(s).value))
    else if s == "" then None
    else
      match Search(s[1..])
      case None => None
      case Some((skipped, seg)) => Some(([s[0]] + skipped, seg))
  }

  /** The anchored test: segments with nothing but space around them. */
  predicate Test(s: string)
    decreases |s|
  {
    TrimStartShortens(s);
    var seg := SegmentAt(TrimStart(s));
    seg.Some? && (AllSpace(seg.value.rest) || Test(seg.value.rest))
  }

  function ScanTotal(s: string): real
    decreases |s|
  {
    match Search(s)
    case None => 0.0
    case Some((_, seg)) => Weight(seg.number, seg.unit) + ScanTotal(seg.rest)
  }

  /** `Math.round`. */
  function Round(x: real): int {
    (x + 0.5).Floor
  }

  function Parsed(s: string): Result<int> {
    if Test(s) then Ok(Round(ScanTotal(s) * 1000.0)) else Err("invalid duration")
  }

  method ParseDuration(s: string) returns (ms: Result<int>)
    ensures ms == Parsed(s)
  {
    hide Weight, Round, Search, Test, ValidDecimal;
    if !Test(s) {
      return Err("invalid duration");
    }
    var totalSec := 0.0;
    var rest := s;
    var m := Search(rest);
    while m.Some?
      invariant m == Search(rest) && totalSec + ScanTotal(rest) == ScanTotal(s)
      decreases |rest|
    {
      var seg := m.value.1;
      totalSec := totalSec + Weight(seg.number, seg.unit);
      rest := seg.rest;
      m := Search(rest);
    }
    ms := Ok(Round(totalSec * 1000.0));
  }

  // ---- The scan on a decomposed string ----

  lemma {:induction false} DigitRunOf(d: string, x: string)
    requires (forall c | c in d :: Digit(c)) && (x != "" ==> !Digit(x[0]))
    ensures DigitRun(d + x) == |d|
  {
    if d == "" {
      assert d + x == x;
    } else {
      assert (d + x)[1..] == d[1..] + x;
      DigitRunOf(d[1..], x);
    }
  }

  lemma NumberAtText(d: Decimal, x: string)
    requires ValidDecimal(d) && x != "" && !Digit(x[0]) && x[0] != '.'
    ensures NumberAt(DecimalText(d) + x) == Some((d, x))
  {
    hide DigitRun;
    var tail := (if d.frac.Some? then "." + d.frac.value else "") + x;
    var s := DecimalText(d) + x;
    assert s == d.whole + tail;
    DigitRunOf(d.whole, tail);
    assert s[..|d.whole|] == d.whole && s[|d.whole|..] == tail;
    if d.frac.Some? {
      assert tail[1..] == d.frac.value + x;
      DigitRunOf(d.frac.value, x);
      assert (d.frac.value + x)[..|d.frac.value|] == d.frac.value && (d.frac.value + x)[|d.frac.value|..] == x;
    } else {
      assert tail == x;
    }
  }

  lemma CharKinds(c: char)
    ensures !(Digit(c) && IsSpace(c)) && !(Digit(c) && Unit(c)) && !(Unit(c) && IsSpace(c))
    ensures c == '.' ==> !Digit(c) && !IsSpace(c) && !Unit(c)
  {
  }

  lemma SegmentAtCore(p: Piece, rest: string)
    requires ValidPiece(p)
    ensures SegmentAt(Core(p) + rest) == Some(Segment(p.number, p.unit, rest))
  {
    hide NumberAt, Digit, IsSpace, Unit, ValidDecimal, DecimalText;
    var more := p.mid + ([p.unit] + rest);
    assert Core(p) + rest == DecimalText(p.number) + more;
    assert more[0] == if p.mid == "" then p.unit else p.mid[0];
    CharKinds(more[0]);
    CharKinds(p.unit);
    NumberAtText(p.number, more);
    TrimStartDrops(p.mid, [p.unit] + rest);
    assert ([p.unit] + rest)[1..] == rest;
  }

  lemma CoreStart(p: Piece, rest: string)
    requires ValidPiece(p)
    ensures Core(p) + rest != "" && !IsSpace((Core(p) + rest)[0])
  {
    hide IsSpace, Digit, Unit;
    assert (Core(p) + rest)[0] == p.number.whole[0] && p.number.whole[0] in p.number.whole;
    CharKinds(p.number.whole[0]);
  }

  lemma NoSegmentAtSpace(s: string)
    requires s == "" || IsSpace(s[0])
    ensures SegmentAt(s).None?
  {
    if s != "" {
      CharKinds(s[0]);
    }
  }

  lemma {:induction false} SearchAfterSpace(pad: string, s: string)
    requires AllSpace(pad)
    ensures match Search(s)
      case None => Search(pad + s).None?
      case Some((skipped, seg)) => Search(pad + s) == Some((pad + skipped, seg))
  {
    hide SegmentAt, IsSpace;
    if pad == "" {
      assert pad + s == s;
      if Search(s).Some? {
        assert pad + Search(s).value.0 == Search(s).value.0;
      }
    } else {
      NoSegmentAtSpace(pad + s);
      assert (pad + s)[1..] == pad[1..] + s;
      SearchAfterSpace(pad[1..], s);
      if Search(s).Some? {
        assert [pad[0]] + (pad[1..] + Search(s).value.0) == pad + Search(s).value.0;
      }
    }
  }

  lemma SearchSpace(s: string)
    requires AllSpace(s)
    ensures Search(s).None?
  {
    NoSegmentAtSpace("");
    SearchAfterSpace(s, "");
    assert s + "" == s;
  }

  lemma SearchPiece(pad: string, pieces: seq<Piece>)
    requires AllSpace(pad) && pieces != [] && AllValid(pieces)
    ensures var p := pieces[0];
      Search(pad + Spell(pieces)) == Some((pad + p.lead, Segment(p.number, p.unit, p.trail + Spell(pieces[1..]))))
  {
    hide SegmentAt, IsSpace, ValidDecimal, Core;
    var p := pieces[0];
    var rest := p.trail + Spell(pieces[1..]);
    assert pad + Spell(pieces) == (pad + p.lead) + (Core(p) + rest);
    SegmentAtCore(p, rest);
    SearchAfterSpace(pad + p.lead, Core(p) + rest);
    assert pad + p.lead + "" == pad + p.lead;
  }

  /** Every match of the scan, each with the characters skipped before it. */
  function Scan(s: string): seq<(string, Segment)>
    decreases |s|
  {
    match Search(s)
    case None => []
    case Some(m) => [m] + Scan(m.1.rest)
  }

  /** What the scan leaves after its last match. */
  function Leftover(s: string): string
    decreases |s|
  {
    match Search(s)
    case None => s
    case Some(m) => Leftover(m.1.rest)
  }

  lemma {:induction false} ScanFindsPieces(pad: string, pieces: seq<Piece>)
    requires AllSpace(pad) && AllValid(pieces)
    ensures var found := Scan(pad + Spell(pieces));
      && |found| == |pieces| && AllSpace(Leftover(pad + Spell(pieces)))
      && forall k | 0 <= k < |pieces| :: found[k].1.number == pieces[k].number && found[k].1.unit == pieces[k].unit && AllSpace(found[k].0)
    ensures ScanTotal(pad + Spell(pieces)) == Total(pieces)
    decreases |pieces|
  {
    hide Search, ValidDecimal, Core, IsSpace, Weight;
    if pieces == [] {
      assert pad + Spell(pieces) == pad;
      SearchSpace(pad);
    } else {
      SearchPiece(pad, pieces);
      assert AllValid(pieces[1..]);
      assert AllSpace(pieces[0].trail) && AllSpace(pad + pieces[0].lead) by { SpaceAround(pad, pieces[0]); }
      ScanFindsPieces(pieces[0].trail, pieces[1..]);
    }
  }

  lemma SpaceAround(pad: string, p: Piece)
    requires AllSpace(pad) && ValidPiece(p)
    ensures AllSpace(p.trail) && AllSpace(pad + p.lead)
  {
  }

  lemma {:induction false} SpelledPasses(pad: string, pieces: seq<Piece>)
    requires AllSpace(pad) && pieces != [] && AllValid(pieces)
    ensures Test(pad + Spell(pieces))
    decreases |pieces|
  {
    hide SegmentAt, IsSpace, ValidDecimal, Core;
    var p := pieces[0];
    var rest := p.trail + Spell(pieces[1..]);
    assert pad + Spell(pieces) == (pad + p.lead) + (Core(p) + rest);
    SegmentAtCore(p, rest);
    CoreStart(p, rest);
    TrimStartDrops(pad + p.lead, Core(p) + rest);
    if pieces[1..] == [] {
      assert rest == p.trail;
    } else {
      assert AllValid(pieces[1..]);
      SpelledPasses(p.trail, pieces[1..]);
    }
  }

  // ---- And back ----

  lemma NumberAtSplits(s: string)
    requires NumberAt(s).Some?
    ensures var (d, rest) := NumberAt(s).value; ValidDecimal(d) && s == DecimalText(d) + rest
  {
    var n := DigitRun(s);
    assert s == s[..n] + s[n..];
  }

  lemma SegmentAtSplits(s: string) returns (mid: string)
    requires SegmentAt(s).Some?
    ensures var seg := SegmentAt(s).value; AllSpace(mid) && s == Core(Piece("", seg.number, mid, seg.unit, "")) + seg.rest
  {
    hide NumberAt, DecimalText, Digit, Unit, IsSpace;
    NumberAtSplits(s);
    var (d, more) := NumberAt(s).value;
    mid := TrimStartSplits(more);
    var tail := TrimStart(more);
    assert tail == [tail[0]] + tail[1..];
  }

  lemma ConsPiece(p: Piece, more: seq<Piece>)
    requires ValidPiece(p) && AllValid(more)
    ensures AllValid([p] + more) && Spell([p] + more) == p.lead + (Core(p) + (p.trail + Spell(more)))
    ensures Total([p] + more) == Weight(p.number, p.unit) + Total(more)
  {
    hide ValidPiece, Core, Weight;
    assert ([p] + more)[1..] == more;
  }

  /** Whatever passes the test decomposes. */
  lemma {:induction false} TestedDecomposes(s: string) returns (pieces: seq<Piece>)
    requires Test(s)
    ensures Decomposes(pieces, s)
    decreases |s|
  {
    hide SegmentAt, IsSpace, ValidDecimal, Core, Spell;
    var pad := TrimStartSplits(s);
    var seg := SegmentAt(TrimStart(s)).value;
    TrimStartShortens(s);
    var mid := SegmentAtSplits(TrimStart(s));
    if AllSpace(seg.rest) {
      var p := Piece(pad, seg.number, mid, seg.unit, seg.rest);
      SameCore(p, Piece("", seg.number, mid, seg.unit, ""));
      ConsPiece(p, []);
      pieces := [p] + [];
      SpellNothing();
      assert seg.rest + "" == seg.rest;
    } else {
      var p := Piece(pad, seg.number, mid, seg.unit, "");
      SameCore(p, Piece("", seg.number, mid, seg.unit, ""));
      var more := TestedDecomposes(seg.rest);
      ConsPiece(p, more);
      pieces := [p] + more;
      assert "" + Spell(more) == seg.rest;
    }
  }

  lemma SpellNothing()
    ensures Spell([]) == ""
  {
  }

  lemma SameCore(p: Piece, q: Piece)
    requires p.number == q.number && p.mid == q.mid && p.unit == q.unit
    ensures Core(p) == Core(q)
  {
  }

  /** The test is the regular expression's meaning. */
  lemma TestIffMatches(s: string)
    ensures Test(s) <==> Matches(s)
    ensures Parsed(s).Err? <==> !Matches(s)
  {
    hide Test, Decomposes;
    if Test(s) {
      var pieces := TestedDecomposes(s);
    }
    if Matches(s) {
      var pieces :| Decomposes(pieces, s);
      DecomposedPasses(pieces, s);
    }
  }

  lemma DecomposedPasses(pieces: seq<Piece>, s: string)
    requires Decomposes(pieces, s)
    ensures Test(s)
  {
    hide Test, Spell;
    SpelledPasses("", pieces);
    assert "" + Spell(pieces) == Spell(pieces);
  }

  /** On an accepted string the scan skips only space and finds the segments of every
      decomposition, so there is only one, and the result is 1000 times their sum, rounded. */
  lemma ParsedIsTotal(pieces: seq<Piece>, s: string)
    requires Decomposes(pieces, s)
    ensures |Scan(s)| == |pieces| && AllSpace(Leftover(s))
    ensures forall k | 0 <= k < |pieces| :: Scan(s)[k].1.number == pieces[k].number && Scan(s)[k].1.unit == pieces[k].unit && AllSpace(Scan(s)[k].0)
    ensures Parsed(s) == Ok(Round(Total(pieces) * 1000.0))
  {
    hide Test, Spell, ScanTotal, Total, Round, Scan, Leftover;
    DecomposedPasses(pieces, s);
    ScanFindsPieces("", pieces);
    assert "" + Spell(pieces) == Spell(pieces);
  }

  /** Two decompositions of a string differ in nothing but where its space is counted. */
  lemma DecompositionIsUnique(a: seq<Piece>, b: seq<Piece>, s: string)
    requires Decomposes(a, s) && Decomposes(b, s)
    ensures |a| == |b| && forall k | 0 <= k < |a| :: a[k].number == b[k].number && a[k].unit == b[k].unit
  {
    hide Decomposes, Scan, Parsed, Leftover;
    ParsedIsTotal(a, s);
    ParsedIsTotal(b, s);
  }

  // ---- Printing ----

  function Show(n: nat): (s: string)
    ensures Digits(s)
  {
    var last := [('0' as int + n % 10) as char];
    if n < 10 then last else Show(n / 10) + last
  }

  lemma {:induction false} NaturalOfShow(n: nat)
    ensures Natural(Show(n)) == n
  {
    var last := [('0' as int + n % 10) as char];
    if n < 10 {
      assert last[..0] == "";
    } else {
      NaturalOfShow(n / 10);
      assert (Show(n / 10) + last)[..|Show(n / 10)|] == Show(n / 10);
    }
  }

  /** A number to print: a natural part, decimals if any, and a unit. */
  datatype Amount = Amount(whole: nat, frac: Option<string>, unit: char)

  predicate ValidAmount(a: Amount) {
    (a.frac.Some? ==> Digits(a.frac.value)) && Unit(a.unit)
  }

  predicate AllAmounts(amounts: seq<Amount>) {
    forall i | 0 <= i < |amounts| :: ValidAmount(amounts[i])
  }

  function PieceOf(a: Amount): Piece {
    Piece("", Decimal(Show(a.whole), a.frac), "", a.unit, "")
  }

  function AmountText(a: Amount): string {
    Show(a.whole) + (if a.frac.Some? then "." + a.frac.value else "") + [a.unit]
  }

  function Print(amounts: seq<Amount>): string {
    if amounts == [] then "" else AmountText(amounts[0]) + Print(amounts[1..])
  }

  function AmountWeight(a: Amount): real
    requires ValidAmount(a)
  {
    var frac := if a.frac.Some? then Natural(a.frac.value) as real / Pow10(|a.frac.value|) as real else 0.0;
    (a.whole as real + frac) * Seconds(a.unit) as real
  }

  function Sum(amounts: seq<Amount>): real
    requires AllAmounts(amounts)
  {
    if amounts == [] then 0.0 else AmountWeight(amounts[0]) + Sum(amounts[1..])
  }

  lemma PieceOfAmount(a: Amount)
    requires ValidAmount(a)
    ensures ValidPiece(PieceOf(a)) && Core(PieceOf(a)) == AmountText(a)
    ensures Weight(PieceOf(a).number, a.unit) == AmountWeight(a)
  {
    hide Show, Natural, Digit, Unit, Seconds, IsSpace;
    NaturalOfShow(a.whole);
    assert DecimalText(PieceOf(a).number) + ("" + [a.unit]) == AmountText(a);
  }

  lemma PrintCons(amounts: seq<Amount>)
    requires amounts != []
    ensures Print(amounts) == AmountText(amounts[0]) + Print(amounts[1..])
  {
  }

  lemma PrintNothing()
    ensures Print([]) == ""
  {
  }

  lemma {:induction false} PrintedDecomposes(amounts: seq<Amount>) returns (pieces: seq<Piece>)
    requires AllAmounts(amounts)
    ensures AllValid(pieces) && |pieces| == |amounts| && Spell(pieces) == Print(amounts) && Total(pieces) == Sum(amounts)
    decreases |amounts|
  {
    hide Show, Natural, Digit, Unit, Weight, Spell, Print, AmountWeight, AmountText, Core;
    if amounts == [] {
      pieces := [];
      SpellNothing();
      PrintNothing();
    } else {
      var a := amounts[0];
      assert AllAmounts(amounts[1..]);
      var more := PrintedDecomposes(amounts[1..]);
      var p := PieceOf(a);
      pieces := [p] + more;
      ConsPiece(p, more);
      PieceOfAmount(a);
      PrintCons(amounts);
      assert "" + (Core(p) + ("" + Spell(more))) == Core(p) + Spell(more);
    }
  }

  /** Print any amounts, parse the text: 1000 times their sum, rounded. */
  lemma PrintedParses(amounts: seq<Amount>)
    requires amounts != [] && AllAmounts(amounts)
    ensures Parsed(Print(amounts)) == Ok(Round(Sum(amounts) * 1000.0))
  {
    hide Parsed, Spell, Print, Sum, Total, Round, AllAmounts, Scan, Leftover;
    var pieces := PrintedDecomposes(amounts);
    assert Decomposes(pieces, Print(amounts));
    ParsedIsTotal(pieces, Print(amounts));
  }

  /** Rounding goes to the nearest whole number, halves upwards. */
  lemma RoundMeans(x: real, n: int)
    ensures Round(x) == n <==> n as real - 0.5 <= x < n as real + 0.5
  {
  }

  lemma ThreeAmounts(a: Amount, b: Amount, c: Amount)
    requires ValidAmount(a) && ValidAmount(b) && ValidAmount(c)
    ensures Print([a, b, c]) == AmountText(a) + (AmountText(b) + AmountText(c))
    ensures Sum([a, b, c]) == AmountWeight(a) + AmountWeight(b) + AmountWeight(c)
  {
    hide AmountText, AmountWeight, ValidAmount;
    var amounts := [a, b, c];
    assert amounts[1..] == [b, c] && amounts[1..][1..] == [c] && amounts[1..][1..][1..] == [];
    assert AmountText(c) + "" == AmountText(c);
    assert Print([b, c]) == AmountText(b) + Print([c]) && Print([c]) == AmountText(c);
    assert Sum([b, c]) == AmountWeight(b) + Sum([c]) && Sum([c]) == AmountWeight(c) + 0.0;
  }

  lemma WholeWeight(n: nat, unit: char)
    requires Unit(unit)
    ensures AmountWeight(Amount(n, None, unit)) == n as real * (if unit in "hH" then 3600.0 else if unit in "mM" then 60.0 else 1.0)
  {
  }

  lemma UnitsAre(c: char)
    ensures Unit(c) <==> c in "hH" || c in "mM" || c in "sS"
  {
  }

  /** Hours, minutes and seconds, each unit in either case. */
  lemma HoursMinutesSeconds(h: nat, m: nat, s: nat, hour: char, minute: char, second: char)
    requires hour in "hH" && minute in "mM" && second in "sS"
    ensures Parsed(Show(h) + [hour] + Show(m) + [minute] + Show(s) + [second]) == Ok(1000 * (3600 * h + 60 * m + s))
  {
    hide Parsed, Show, Unit, AmountWeight, Print, Sum, Round;
    UnitsAre(hour);
    UnitsAre(minute);
    UnitsAre(second);
    var a, b, c := Amount(h, None, hour), Amount(m, None, minute), Amount(s, None, second);
    PrintedParses([a, b, c]);
    ThreeAmounts(a, b, c);
    WholeWeight(h, hour);
    WholeWeight(m, minute);
    WholeWeight(s, second);
    assert Print([a, b, c]) == Show(h) + [hour] + Show(m) + [minute] + Show(s) + [second];
    var total := 1000 * (3600 * h + 60 * m + s);
    assert Sum([a, b, c]) * 1000.0 == total as real;
    RoundMeans(total as real, total);
  }

  /** A tenth of a second is a hundred milliseconds. */
  lemma Tenths(n: nat, tenth: nat)
    requires tenth < 10
    ensures Parsed(Show(n) + "." + Show(tenth) + "s") == Ok(1000 * n + 100 * tenth)
  {
    hide Parsed, Digit, IsSpace;
    var amounts := [Amount(n, Some(Show(tenth)), 's')];
    PrintedParses(amounts);
    NaturalOfShow(tenth);
    assert amounts[1..] == [];
    assert Print(amounts) == Show(n) + "." + Show(tenth) + "s";
    assert Sum(amounts) == n as real + tenth as real / 10.0;
    RoundMeans((1000 * n + 100 * tenth) as real, 1000 * n + 100 * tenth);
  }

  /** Decimal numbers, some of the documented ones among them. */
  lemma Examples()
    ensures Parsed("1h30m0s") == Ok(5_400_000) && Parsed("0.5s") == Ok(500) && Parsed("0H0M19S") == Ok(19_000)
  {
    hide Parsed;
    HoursMinutesSeconds(1, 30, 0, 'h', 'm', 's');
    HoursMinutesSeconds(0, 0, 19, 'H', 'M', 'S');
    Tenths(0, 5);
    assert Show(30) == Show(3) + "0" && Show(19) == Show(1) + "9";
    assert Show(1) == "1" && Show(3) == "3" && Show(0) == "0" && Show(5) == "5";
    assert Show(1) + ['h'] + Show(30) + ['m'] + Show(0) + ['s'] == "1h30m0s";
    assert Show(0) + ['H'] + Show(0) + ['M'] + Show(19) + ['S'] == "0H0M19S";
    assert Show(0) + "." + Show(5) + "s" == "0.5s";
  }
}
