/**
  The text of a JSON document (RFC 8259, sections 2 to 7, integers only) and its
  syntax tree: strings are sequences of UTF-16 units, as \u escapes write them,
  and members stand in the order they are written. Show is the canonical text
  json.dumps gives with no spaces and ASCII only; Read accepts any text.
 */
module JsonSyntax {
  import opened Options
  import opened Decimals
  import opened Json

  type Unit = u: nat | u < 0x10000

  datatype Tree = TNull | TBool(truth: bool) | TInt(number: int) | TText(units: seq<Unit>) | TArray(items: seq<Tree>) | TObject(entries: seq<Entry>)

  datatype Entry = Entry(key: seq<Unit>, value: Tree)

  // ----- Writing -----

  function HexDigit(n: nat): Code
    requires n < 16
  {
    if n < 10 then 48 + n else 87 + n
  }

  function HexValue(c: Code): (r: Option<nat>)
    ensures r.Some? ==> r.value < 16
  {
    if 48 <= c <= 57 then Some(c - 48)
    else if 97 <= c <= 102 then Some(c - 87)
    else if 65 <= c <= 70 then Some(c - 55)
    else None
  }

  function Hex4(u: Unit): (t: Text)
    ensures |t| == 4
  {
    [HexDigit(u / 4096), HexDigit(u / 256 % 16), HexDigit(u / 16 % 16), HexDigit(u % 16)]
  }

  /** Backslash, then the letter RFC 8259 gives the unit, if it has one. */
  function ShortEscape(u: Unit): Option<Code> {
    if u == 34 || u == 92 then Some(u)
    else if u == 8 then Some(98)
    else if u == 9 then Some(116)
    else if u == 10 then Some(110)
    else if u == 12 then Some(102)
    else if u == 13 then Some(114)
    else None
  }

  function Escape(u: Unit): (t: Text)
    ensures |t| > 0
  {
    if ShortEscape(u).Some? then [92, ShortEscape(u).value]
    else if 32 <= u <= 126 then [u]
    else [92, 117] + Hex4(u)
  }

  function EscapeAll(units: seq<Unit>): Text {
    if units == [] then [] else Escape(units[0]) + EscapeAll(units[1..])
  }

  function Quote(units: seq<Unit>): Text {
    [34] + EscapeAll(units) + [34]
  }

  function ShowInt(n: int): Text {
    if n < 0 then [45] + Decimal(-n) else Decimal(n)
  }

  function Show(t: Tree): (s: Text)
    ensures |s| > 0
    decreases t, 0
  {
    match t
    case TNull => [110, 117, 108, 108]
    case TBool(truth) => if truth then [116, 114, 117, 101] else [102, 97, 108, 115, 101]
    case TInt(number) => ShowInt(number)
    case TText(units) => Quote(units)
    case TArray(items) => if items == [] then [91, 93] else [91] + ShowItems(items)
    case TObject(entries) => if entries == [] then [123, 125] else [123] + ShowEntries(entries)
  }

  /** The items with commas between, and the closing bracket. */
  function ShowItems(items: seq<Tree>): (s: Text)
    requires items != []
    ensures |s| > 0
    decreases items
  {
    Show(items[0]) + if |items| == 1 then [93] else [44] + ShowItems(items[1..])
  }

  function ShowEntries(entries: seq<Entry>): (s: Text)
    requires entries != []
    ensures |s| > 0
    decreases entries
  {
    Quote(entries[0].key) + [58] + Show(entries[0].value) + if |entries| == 1 then [125] else [44] + ShowEntries(entries[1..])
  }

  // ----- Reading -----

  predicate IsSpace(c: Code) {
    c == 32 || c == 9 || c == 10 || c == 13
  }

  function Skip(s: Text): (rest: Text)
    ensures |rest| <= |s|
    ensures s != [] && !IsSpace(s[0]) ==> rest == s
  {
    if s != [] && IsSpace(s[0]) then Skip(s[1..]) else s
  }

  predicate StartsWith(s: Text, prefix: Text) {
    |s| >= |prefix| && s[..|prefix|] == prefix
  }

  /** The unit after a backslash and the text after it. */
  function ReadEscape(s: Text): (r: Option<(Unit, Text)>)
    ensures r.Some? ==> |r.value.1| < |s|
  {
    if s == [] then None
    else if s[0] == 34 || s[0] == 92 || s[0] == 47 then Some((s[0], s[1..]))
    else if s[0] == 98 then Some((8, s[1..]))
    else if s[0] == 102 then Some((12, s[1..]))
    else if s[0] == 110 then Some((10, s[1..]))
    else if s[0] == 114 then Some((13, s[1..]))
    else if s[0] == 116 then Some((9, s[1..]))
    else if s[0] == 117 && |s| >= 5 then
      var u :- HexUnit(s[1], s[2], s[3], s[4]);
      Some((u, s[5..]))
    else None
  }

  /** The unit four digits write. */
  function HexUnit(p: Code, q: Code, r: Code, s: Code): Option<Unit> {
    var a :- HexValue(p);
    var b :- HexValue(q);
    var c :- HexValue(r);
    var d :- HexValue(s);
    Some(4096 * a + 256 * b + 16 * c + d)
  }

  /** The units of a code point. */
  function UnitsOf(c: Code): seq<Unit> {
    if c < 0x10000 then [c] else [0xD800 + (c - 0x10000) / 0x400, 0xDC00 + (c - 0x10000) % 0x400]
  }

  /** A string up to its closing quote. */
  function ReadUnits(s: Text): (r: Option<(seq<Unit>, Text)>)
    ensures r.Some? ==> |r.value.1| < |s|
    decreases |s|
  {
    if s == [] || s[0] < 32 then None
    else if s[0] == 34 then Some(([], s[1..]))
    else if s[0] == 92 then
      var (u, more) :- ReadEscape(s[1..]);
      var (units, rest) :- ReadUnits(more);
      Some(([u] + units, rest))
    else
      var (units, rest) :- ReadUnits(s[1..]);
      Some((UnitsOf(s[0]) + units, rest))
  }

  /** The longest run of digits at the front. */
  function Run(s: Text): (digits: Text)
    ensures |digits| <= |s| && digits == s[..|digits|] && AllDigits(digits)
    ensures |digits| < |s| ==> !IsDigit(s[|digits|])
  {
    if s != [] && IsDigit(s[0]) then [s[0]] + Run(s[1..]) else []
  }

  /** An integer; after a leading zero another digit cannot follow. */
  function ReadNat(s: Text): (r: Option<(nat, Text)>)
    ensures r.Some? ==> |r.value.1| < |s|
  {
    var digits := Run(s);
    if digits == [] || (digits[0] == 48 && |digits| > 1) then None else Some((Value(digits), s[|digits|..]))
  }

  function Read(s: Text): (r: Option<(Tree, Text)>)
    ensures r.Some? ==> |r.value.1| < |s|
    decreases |s|, 0
  {
    if s == [] then None
    else if s[0] == 34 then
      var (units, rest) :- ReadUnits(s[1..]);
      Some((TText(units), rest))
    else if s[0] == 91 then
      var inside := Skip(s[1..]);
      if inside != [] && inside[0] == 93 then Some((TArray([]), inside[1..]))
      else
        var (items, rest) :- ReadItems(inside);
        Some((TArray(items), rest))
    else if s[0] == 123 then
      var inside := Skip(s[1..]);
      if inside != [] && inside[0] == 125 then Some((TObject([]), inside[1..]))
      else
        var (entries, rest) :- ReadEntries(inside);
        Some((TObject(entries), rest))
    else if s[0] == 45 then
      var (n, rest) :- ReadNat(s[1..]);
      Some((TInt(0 - n), rest))
    else if IsDigit(s[0]) then
      var (n, rest) :- ReadNat(s);
      Some((TInt(n), rest))
    else if StartsWith(s, [110, 117, 108, 108]) then Some((TNull, s[4..]))
    else if StartsWith(s, [116, 114, 117, 101]) then Some((TBool(true), s[4..]))
    else if StartsWith(s, [102, 97, 108, 115, 101]) then Some((TBool(false), s[5..]))
    else None
  }

  function ReadItems(s: Text): (r: Option<(seq<Tree>, Text)>)
    ensures r.Some? ==> |r.value.1| < |s|
    decreases |s|, 1
  {
    var (item, after) :- Read(s);
    var next := Skip(after);
    if next == [] then None
    else if next[0] == 93 then Some(([item], next[1..]))
    else if next[0] == 44 then
      var (items, rest) :- ReadItems(Skip(next[1..]));
      Some(([item] + items, rest))
    else None
  }

  function ReadEntries(s: Text): (r: Option<(seq<Entry>, Text)>)
    ensures r.Some? ==> |r.value.1| < |s|
    decreases |s|, 1
  {
    if s == [] || s[0] != 34 then None
    else
      var (key, afterKey) :- ReadUnits(s[1..]);
      var colon := Skip(afterKey);
      if colon == [] || colon[0] != 58 then None
      else
        var (value, after) :- Read(Skip(colon[1..]));
        var next := Skip(after);
        if next == [] then None
        else if next[0] == 125 then Some(([Entry(key, value)], next[1..]))
        else if next[0] == 44 then
          var (entries, rest) :- ReadEntries(Skip(next[1..]));
          Some(([Entry(key, value)] + entries, rest))
        else None
  }

  // ----- Reading undoes writing -----

  lemma DigitsOfUnit(u: Unit)
    ensures u == 4096 * (u / 4096) + 256 * (u / 256 % 16) + 16 * (u / 16 % 16) + u % 16
  {
    var high, middle := u / 256, u / 16;
    assert u == 16 * middle + u % 16;
    assert middle == 16 * high + middle % 16 && high == middle / 16;
    assert high == 16 * (high / 16) + high % 16 && high / 16 == u / 4096;
  }

  lemma HexRead(u: Unit, more: Text)
    ensures ReadEscape([117] + Hex4(u) + more) == Some((u, more))
  {
    var s := [117] + Hex4(u) + more;
    assert s[1..5] == Hex4(u) && s[5..] == more;
    assert s[1] == Hex4(u)[0] && s[2] == Hex4(u)[1] && s[3] == Hex4(u)[2] && s[4] == Hex4(u)[3];
    DigitsOfUnit(u);
  }

  lemma EscapeRead(u: Unit, more: Text)
    requires ReadUnits(more).Some?
    ensures ReadUnits(Escape(u) + more) == Some(([u] + ReadUnits(more).value.0, ReadUnits(more).value.1))
  {
    var s := Escape(u) + more;
    if ShortEscape(u).Some? {
      var c := ShortEscape(u).value;
      assert s[1..] == [c] + more && ([c] + more)[1..] == more;
      assert ReadEscape(s[1..]) == Some((u, more));
    } else if 32 <= u <= 126 {
      assert s[1..] == more;
    } else {
      assert s[1..] == [117] + Hex4(u) + more;
      HexRead(u, more);
    }
  }

  lemma {:induction false} QuoteRead(units: seq<Unit>, rest: Text)
    ensures ReadUnits(EscapeAll(units) + [34] + rest) == Some((units, rest))
    decreases |units|
  {
    hide ReadUnits, Escape;
    if units == [] {
      assert EscapeAll(units) + [34] + rest == [34] + rest;
      QuoteEnds(rest);
    } else {
      var more := EscapeAll(units[1..]) + [34] + rest;
      QuoteRead(units[1..], rest);
      assert EscapeAll(units) + [34] + rest == Escape(units[0]) + more;
      assert units == [units[0]] + units[1..];
      EscapeRead(units[0], more);
    }
  }

  lemma QuoteEnds(rest: Text)
    ensures ReadUnits([34] + rest) == Some(([], rest))
  {
    assert ([34] + rest)[1..] == rest;
  }

  lemma {:induction false} RunIsDigits(digits: Text, rest: Text)
    requires AllDigits(digits) && (rest != [] ==> !IsDigit(rest[0]))
    ensures Run(digits + rest) == digits
    decreases |digits|
  {
    if digits == [] {
      assert digits + rest == rest;
    } else {
      RunIsDigits(digits[1..], rest);
      assert (digits + rest)[1..] == digits[1..] + rest;
    }
  }

  lemma NatRead(n: nat, rest: Text)
    requires rest != [] ==> !IsDigit(rest[0])
    ensures ReadNat(Decimal(n) + rest) == Some((n, rest))
  {
    RunIsDigits(Decimal(n), rest);
    ValueOfDecimal(n);
    assert (Decimal(n) + rest)[|Decimal(n)|..] == rest;
  }

  /** What a value may be followed by: anything a number would not run on into. */
  predicate Ends(rest: Text) {
    rest != [] ==> !IsDigit(rest[0]) && rest[0] !in [46, 69, 101]
  }

  lemma IntRead(n: int, rest: Text)
    requires Ends(rest)
    ensures Read(ShowInt(n) + rest) == Some((TInt(n), rest))
  {
    var s := ShowInt(n) + rest;
    hide ReadNat, ReadUnits, ReadItems, ReadEntries, Skip, Decimal;
    if n < 0 {
      NatRead(-n, rest);
      assert s[1..] == Decimal(-n) + rest;
    } else {
      NatRead(n, rest);
      assert IsDigit(s[0]) by {
        assert s[0] == Decimal(n)[0];
      }
    }
  }

  /** A value starts with none of the signs that would end a list, and with no space. */
  lemma ShowStarts(t: Tree)
    ensures Show(t)[0] != 93 && Show(t)[0] != 125 && !IsSpace(Show(t)[0])
  {
    if t.TInt? {
      assert IsDigit(Decimal(if t.number < 0 then -t.number else t.number)[0]);
    }
  }

  lemma {:induction false} ReadShow(t: Tree, rest: Text)
    requires Ends(rest)
    ensures Read(Show(t) + rest) == Some((t, rest))
    decreases t, 0
  {
    var s := Show(t) + rest;
    match t
    case TInt(number) => IntRead(number, rest);
    case TText(units) =>
      assert s[1..] == EscapeAll(units) + [34] + rest;
      QuoteRead(units, rest);
    case TArray(items) => ReadShowArray(items, rest);
    case TObject(entries) => ReadShowObject(entries, rest);
    case TNull => assert s[..4] == [110, 117, 108, 108] && s[4..] == rest;
    case TBool(truth) =>
      if truth {
        assert s[..4] == [116, 114, 117, 101] && s[4..] == rest;
      } else {
        assert s[..5] == [102, 97, 108, 115, 101] && s[5..] == rest;
      }
  }

  lemma {:induction false} ReadShowArray(items: seq<Tree>, rest: Text)
    requires Ends(rest)
    ensures Read(Show(TArray(items)) + rest) == Some((TArray(items), rest))
    decreases items, 1
  {
    var s := Show(TArray(items)) + rest;
    if items == [] {
      assert s[1..] == [93] + rest && ([93] + rest)[1..] == rest;
    } else {
      var inside := ShowItems(items) + rest;
      assert s[1..] == inside;
      ShowStarts(items[0]);
      assert inside[0] == Show(items[0])[0];
      ReadShowItems(items, rest);
    }
  }

  lemma Regroup(a: Text, b: Text, c: Text)
    ensures (a + b) + c == a + (b + c)
  {
  }

  /** What follows the first item: the closing bracket, or a comma and the other items. */
  function ItemsTail(items: seq<Tree>, rest: Text): (tail: Text)
    requires items != []
    ensures tail != []
  {
    if |items| == 1 then [93] + rest else [44] + (ShowItems(items[1..]) + rest)
  }

  lemma ShowItemsStep(items: seq<Tree>, rest: Text)
    requires items != []
    ensures ShowItems(items) + rest == Show(items[0]) + ItemsTail(items, rest)
    ensures (ShowItems(items) + rest)[0] == Show(items[0])[0]
  {
    var front := Show(items[0]);
    hide Show;
    if |items| == 1 {
      Regroup(front, [93], rest);
    } else {
      Regroup(front, [44] + ShowItems(items[1..]), rest);
      Regroup([44], ShowItems(items[1..]), rest);
    }
  }

  lemma {:induction false} ReadShowItems(items: seq<Tree>, rest: Text)
    requires Ends(rest) && items != []
    ensures ReadItems(ShowItems(items) + rest) == Some((items, rest))
    decreases items, 0
  {
    hide Read, Show, ShowItems;
    var tail := ItemsTail(items, rest);
    ReadShow(items[0], tail);
    ShowItemsStep(items, rest);
    if |items| == 1 {
      assert tail[1..] == rest;
      assert items == [items[0]];
    } else {
      var more := ShowItems(items[1..]) + rest;
      assert tail[1..] == more;
      ShowItemsStep(items[1..], rest);
      ShowStarts(items[1]);
      ReadShowItems(items[1..], rest);
      assert Skip(more) == more;
      assert items == [items[0]] + items[1..];
    }
  }

  lemma EmptyObjectReads(rest: Text)
    ensures Read([123, 125] + rest) == Some((TObject([]), rest))
  {
    var s := [123, 125] + rest;
    assert s[1..] == [125] + rest && ([125] + rest)[1..] == rest;
  }

  /** An object is read by reading its entries, which begin with a quote. */
  lemma ObjectReads(inside: Text, entries: seq<Entry>, rest: Text)
    requires inside != [] && inside[0] == 34 && ReadEntries(inside) == Some((entries, rest))
    ensures Read([123] + inside) == Some((TObject(entries), rest))
  {
    hide ReadEntries, ReadItems, ReadNat, ReadUnits;
    assert ([123] + inside)[1..] == inside;
  }

  lemma EntriesStartWithQuote(entries: seq<Entry>)
    requires entries != []
    ensures ShowEntries(entries) != [] && ShowEntries(entries)[0] == 34
  {
    hide Show, EscapeAll;
  }

  lemma {:induction false} ReadShowObject(entries: seq<Entry>, rest: Text)
    requires Ends(rest)
    ensures Read(Show(TObject(entries)) + rest) == Some((TObject(entries), rest))
    decreases entries, 1
  {
    hide Read, ReadEntries, ShowEntries;
    if entries == [] {
      EmptyObjectReads(rest);
    } else {
      EntriesStartWithQuote(entries);
      ReadShowEntries(entries, rest);
      assert Show(TObject(entries)) + rest == [123] + (ShowEntries(entries) + rest);
      ObjectReads(ShowEntries(entries) + rest, entries, rest);
    }
  }

  /** One member, given that its value is read back. */
  lemma EntryRead(e: Entry, after: Text)
    requires Read(Show(e.value) + after) == Some((e.value, after))
    requires after != [] && (after[0] == 125 || after[0] == 44)
    ensures var s := Quote(e.key) + [58] + Show(e.value) + after;
      ReadEntries(s) == if after[0] == 125 then Some(([e], after[1..]))
                        else
                          var (entries, rest) :- ReadEntries(Skip(after[1..]));
                          Some(([e] + entries, rest))
  {
    hide Read, Show, ReadUnits, EscapeAll;
    var value := Show(e.value) + after;
    var s := Quote(e.key) + [58] + Show(e.value) + after;
    assert s[1..] == EscapeAll(e.key) + [34] + ([58] + value);
    QuoteRead(e.key, [58] + value);
    ShowStarts(e.value);
    assert ([58] + value)[1..] == value && value[0] == Show(e.value)[0];
  }

  /** What follows the first member: the closing brace, or a comma and the other members. */
  function EntriesTail(entries: seq<Entry>, rest: Text): (tail: Text)
    requires entries != []
    ensures tail != []
  {
    if |entries| == 1 then [125] + rest else [44] + (ShowEntries(entries[1..]) + rest)
  }

  lemma ShowEntriesStep(entries: seq<Entry>, rest: Text)
    requires entries != []
    ensures ShowEntries(entries) + rest == Quote(entries[0].key) + [58] + Show(entries[0].value) + EntriesTail(entries, rest)
    ensures (ShowEntries(entries) + rest)[0] == 34
  {
    var front := Quote(entries[0].key) + [58] + Show(entries[0].value);
    assert front[0] == 34;
    hide Show, Quote;
    if |entries| == 1 {
      Regroup(front, [125], rest);
    } else {
      Regroup(front, [44] + ShowEntries(entries[1..]), rest);
      Regroup([44], ShowEntries(entries[1..]), rest);
    }
  }

  lemma {:induction false} ReadShowEntries(entries: seq<Entry>, rest: Text)
    requires Ends(rest) && entries != []
    ensures ReadEntries(ShowEntries(entries) + rest) == Some((entries, rest))
    decreases entries, 0
  {
    hide Read, ReadEntries, Show, Quote, ShowEntries;
    var e := entries[0];
    var tail := EntriesTail(entries, rest);
    ReadShow(e.value, tail);
    EntryRead(e, tail);
    ShowEntriesStep(entries, rest);
    if |entries| == 1 {
      assert tail[1..] == rest;
      assert entries == [e];
    } else {
      var more := ShowEntries(entries[1..]) + rest;
      assert tail[1..] == more;
      ShowEntriesStep(entries[1..], rest);
      ReadShowEntries(entries[1..], rest);
      assert Skip(more) == more;
      assert entries == [e] + entries[1..];
    }
  }

  /** Trees with one text are one tree. */
  lemma ShowIsInjective(a: Tree, b: Tree)
    requires Show(a) == Show(b)
    ensures a == b
  {
    ReadShow(a, []);
    ReadShow(b, []);
    assert Show(a) + [] == Show(a) && Show(b) + [] == Show(b);
  }
}
