/**
 The duplicate-key scanner of src/config/config-loader.ts, over UTF-16 code units. Printed JSON
 (RFC 8259, sections 2, 4, 5 and 7) may carry any whitespace and any escapes.
 */
module DuplicateKeys {
  import opened Prelude

  newtype Unit = x: int | 0 <= x < 0x1_0000
  type Text = seq<Unit>

  const QUOTE: Unit := 0x22
  const BACKSLASH: Unit := 0x5C
  const COMMA: Unit := 0x2C
  const COLON: Unit := 0x3A
  const OPEN_BRACKET: Unit := 0x5B
  const CLOSE_BRACKET: Unit := 0x5D
  const OPEN_BRACE: Unit := 0x7B
  const CLOSE_BRACE: Unit := 0x7D

  /** The class `\s` of a regular expression, which is wider than the whitespace of JSON. */
  predicate Space(u: Unit) {
    || 0x09 <= u <= 0x0D || u == 0x20 || u == 0xA0 || u == 0x1680 || 0x2000 <= u <= 0x200A
    || u == 0x2028 || u == 0x2029 || u == 0x202F || u == 0x205F || u == 0x3000 || u == 0xFEFF
  }

  /** Its 25 code units, one by one. */
  lemma SpaceIs(u: Unit)
    ensures Space(u) <==>
            u in {9, 10, 11, 12, 13, 32, 160, 5760, 8192, 8193, 8194, 8195, 8196, 8197, 8198, 8199, 8200, 8201, 8202,
                  8232, 8233, 8239, 8287, 12288, 65279}
  {
  }

  /** Whitespace in the sense of RFC 8259, section 2. */
  predicate JsonSpace(u: Unit) {
    u == 0x20 || u == 0x09 || u == 0x0A || u == 0x0D
  }

  predicate Ends(u: Unit) {
    Space(u) || u == COMMA || u == CLOSE_BRACE || u == CLOSE_BRACKET
  }

  // ----- String literals (RFC 8259, section 7) ------------------------------------------------

  function Hex(u: Unit): Option<int>
    ensures Hex(u).Some? ==> 0 <= Hex(u).value < 16
  {
    if 0x30 <= u <= 0x39 then Some(u as int - 0x30)
    else if 0x41 <= u <= 0x46 then Some(u as int - 0x37)
    else if 0x61 <= u <= 0x66 then Some(u as int - 0x57)
    else None
  }

  function Escape(u: Unit): Option<Unit> {
    if u == QUOTE || u == BACKSLASH || u == 0x2F then Some(u)
    else if u == 0x62 then Some(0x08)
    else if u == 0x66 then Some(0x0C)
    else if u == 0x6E then Some(0x0A)
    else if u == 0x72 then Some(0x0D)
    else if u == 0x74 then Some(0x09)
    else None
  }

  /** JSON.parse on the text between the quotes. */
  function Decode(content: Text): Option<Text> {
    if content == [] then Some([])
    else if content[0] == QUOTE || content[0] < 0x20 then None
    else if content[0] != BACKSLASH then
      match Decode(content[1..])
      case None => None
      case Some(rest) => Some([content[0]] + rest)
    else if |content| < 2 then None
    else if content[1] != 0x75 then
      match (Escape(content[1]), Decode(content[2..]))
      case (Some(u), Some(rest)) => Some([u] + rest)
      case _ => None
    else if |content| < 6 then None
    else
      match (Hex(content[2]), Hex(content[3]), Hex(content[4]), Hex(content[5]), Decode(content[6..]))
      case (Some(a), Some(b), Some(c), Some(d), Some(rest)) => Some([(((a * 16 + b) * 16 + c) * 16 + d) as Unit] + rest)
      case _ => None
  }

  /** A hexadecimal digit of this value, in either case. */
  predicate IsHexDigit(u: Unit, value: int) {
    || (0 <= value <= 9 && u as int == 0x30 + value)
    || (10 <= value <= 15 && (u as int == 0x41 + value - 10 || u as int == 0x61 + value - 10))
  }

  /** The two-character escapes: backslash and this code unit stand for that one. */
  predicate IsEscape(letter: Unit, u: Unit) {
    || (letter == 0x22 && u == 0x22) || (letter == 0x5C && u == 0x5C) || (letter == 0x2F && u == 0x2F)
    || (letter == 0x62 && u == 8) || (letter == 0x66 && u == 12) || (letter == 0x6E && u == 10)
    || (letter == 0x72 && u == 13) || (letter == 0x74 && u == 9)
  }

  predicate FourDigits(part: Text, a: int, b: int, c: int, d: int)
    requires |part| == 6
  {
    IsHexDigit(part[2], a) && IsHexDigit(part[3], b) && IsHexDigit(part[4], c) && IsHexDigit(part[5], d)
  }

  /** A backslash, u and four digits, for this code unit. */
  ghost predicate IsUnicodeEscape(part: Text, u: Unit) {
    && |part| == 6 && part[0] == 0x5C && part[1] == 0x75
    && exists a, b, c, d :: FourDigits(part, a, b, c, d) && u as int == 0x1000 * a + 0x100 * b + 0x10 * c + d
  }

  /** How one code unit of a name may be written: as itself, by a short escape, or by its number. */
  ghost predicate SpellsUnit(part: Text, u: Unit) {
    || (part == [u] && u >= 0x20 && u != 0x22 && u != 0x5C)
    || (|part| == 2 && part[0] == 0x5C && IsEscape(part[1], u))
    || IsUnicodeEscape(part, u)
  }

  /** How a name may be written between the quotes, code unit by code unit. */
  ghost predicate Spells(content: Text, name: Text)
    decreases |name|
  {
    if name == [] then content == []
    else exists k :: 0 <= k <= |content| && SpellsUnit(content[..k], name[0]) && Spells(content[k..], name[1..])
  }

  lemma HexIsDigit(u: Unit, value: int)
    ensures Hex(u) == Some(value) <==> IsHexDigit(u, value)
  {
  }

  lemma EscapeIsEscape(letter: Unit, u: Unit)
    ensures Escape(letter) == Some(u) <==> IsEscape(letter, u)
    ensures Escape(0x75) == None
  {
  }

  /** Four hexadecimal digits and the number they stand for. */
  lemma HexDigits(part: Text, u: Unit)
    requires |part| == 6 && part[0] == BACKSLASH && part[1] == 0x75
    ensures IsUnicodeEscape(part, u) <==>
            match (Hex(part[2]), Hex(part[3]), Hex(part[4]), Hex(part[5]))
            case (Some(a), Some(b), Some(c), Some(d)) => u as int == ((a * 16 + b) * 16 + c) * 16 + d
            case _ => false
  {
    forall a, b, c, d ensures FourDigits(part, a, b, c, d) <==> FourHex(part, a, b, c, d) {
      HexIsDigit(part[2], a);
      HexIsDigit(part[3], b);
      HexIsDigit(part[4], c);
      HexIsDigit(part[5], d);
    }
    hide IsHexDigit, Hex, FourDigits;
    if Hex(part[2]).Some? && Hex(part[3]).Some? && Hex(part[4]).Some? && Hex(part[5]).Some? {
      assert FourHex(part, Hex(part[2]).value, Hex(part[3]).value, Hex(part[4]).value, Hex(part[5]).value);
    }
  }

  predicate FourHex(part: Text, a: int, b: int, c: int, d: int)
    requires |part| == 6
  {
    Hex(part[2]) == Some(a) && Hex(part[3]) == Some(b) && Hex(part[4]) == Some(c) && Hex(part[5]) == Some(d)
  }

  /** The first part of a content that spells one code unit is the part that Decode takes. */
  lemma PartLength(content: Text, k: nat, u: Unit)
    requires k <= |content| && SpellsUnit(content[..k], u)
    ensures content != [] && k == (if content[0] != 0x5C then 1 else if |content| >= 2 && content[1] == 0x75 then 6
                                   else 2)
  {
    assert k > 0 ==> content[..k][0] == content[0];
    assert k > 1 ==> content[..k][1] == content[1];
  }

  /** Decode is the inverse of spelling: it accepts exactly the spellings, and gives the name they spell. */
  lemma {:induction false} DecodeIsSpelling(content: Text, name: Text)
    ensures Decode(content) == Some(name) <==> Spells(content, name)
    decreases |content|
  {
    if content == [] {
      NothingSpellsSomething(name);
    } else if name == [] {
      assert Decode(content) != Some([]);
    } else {
      var k := if content[0] != 0x5C then 1 else if |content| >= 2 && content[1] == 0x75 then 6 else 2;
      if k <= |content| {
        DecodeIsSpelling(content[k..], name[1..]);
        OneUnit(content, k, name);
      } else {
        TooShort(content, k, name);
      }
    }
  }

  lemma NothingSpellsSomething(name: Text)
    ensures Spells([], name) <==> name == []
  {
    if name != [] {
      var nothing: Text := [];
      assert nothing[..0] == nothing;
    }
  }

  lemma TooShort(content: Text, k: nat, name: Text)
    requires content != [] && name != [] && |content| < k
    requires k == if content[0] != 0x5C then 1 else if |content| >= 2 && content[1] == 0x75 then 6 else 2
    ensures Decode(content) == None && !Spells(content, name)
  {
    hide SpellsUnit;
    if Spells(content, name) {
      var j :| 0 <= j <= |content| && SpellsUnit(content[..j], name[0]) && Spells(content[j..], name[1..]);
      PartLength(content, j, name[0]);
    }
  }

  lemma OneUnit(content: Text, k: nat, name: Text)
    requires content != [] && name != [] && k <= |content|
    requires k == if content[0] != 0x5C then 1 else if |content| >= 2 && content[1] == 0x75 then 6 else 2
    requires Decode(content[k..]) == Some(name[1..]) <==> Spells(content[k..], name[1..])
    ensures Decode(content) == Some(name) <==> Spells(content, name)
  {
    var part := content[..k];
    assert Spells(content, name) <==> SpellsUnit(part, name[0]) && Spells(content[k..], name[1..]) by {
      hide SpellsUnit;
      forall j | 0 <= j <= |content| && SpellsUnit(content[..j], name[0]) ensures j == k {
        PartLength(content, j, name[0]);
      }
    }
    assert Decode(content) == Some(name) <==> SpellsUnit(part, name[0]) && Decode(content[k..]) == Some(name[1..]) by {
      DecodeOne(content, k, name);
    }
  }

  lemma DecodeOne(content: Text, k: nat, name: Text)
    requires content != [] && name != [] && k <= |content|
    requires k == if content[0] != 0x5C then 1 else if |content| >= 2 && content[1] == 0x75 then 6 else 2
    ensures Decode(content) == Some(name) <==>
              SpellsUnit(content[..k], name[0]) && Decode(content[k..]) == Some(name[1..])
  {
    var part := content[..k];
    assert forall i :: 0 <= i < k ==> part[i] == content[i];
    assert name == [name[0]] + name[1..];
    if k == 1 {
      assert part == [content[0]];
    } else if k == 2 {
      EscapeIsEscape(content[1], name[0]);
      hide Escape, IsEscape;
    } else {
      DecodeEscape(content, name);
    }
  }

  lemma DecodeEscape(content: Text, name: Text)
    requires |content| >= 6 && name != [] && content[0] == BACKSLASH && content[1] == 0x75
    ensures Decode(content) == Some(name) <==>
              SpellsUnit(content[..6], name[0]) && Decode(content[6..]) == Some(name[1..])
  {
    HexDigits(content[..6], name[0]);
    assert name == [name[0]] + name[1..];
    hide Hex, IsUnicodeEscape;
  }

  // ----- Printed JSON --------------------------------------------------------------------------

  /** A JSON text as it is written: every literal and every piece of whitespace is kept. */
  datatype Value =
    | Str(content: Text)
    | Scalar(text: Text)
    | Arr(open: Text, items: Items)
    | Obj(open: Text, members: Members)
  datatype Items = NoItems | Item(before: Text, value: Value, after: Text, rest: Items)
  datatype Members = NoMembers | Member(before: Text, key: Text, mid: Text, between: Text, value: Value, after: Text,
                                        rest: Members)

  function Print(v: Value): Text {
    match v
    case Str(content) => [QUOTE] + content + [QUOTE]
    case Scalar(text) => text
    case Arr(open, items) => [OPEN_BRACKET] + open + (if items.NoItems? then [CLOSE_BRACKET] else PrintItems(items))
    case Obj(open, members) => [OPEN_BRACE] + open + (if members.NoMembers? then [CLOSE_BRACE]
                                                      else PrintMembers(members))
  }

  function PrintItems(items: Items): Text
    requires items.Item?
  {
    items.before + Print(items.value) + items.after +
    (if items.rest.NoItems? then [CLOSE_BRACKET] else [COMMA] + PrintItems(items.rest))
  }

  function PrintMembers(members: Members): Text
    requires members.Member?
  {
    members.before + [QUOTE] + members.key + [QUOTE] + members.mid + [COLON] + members.between + Print(members.value) +
    members.after +
    (if members.rest.NoMembers? then [CLOSE_BRACE] else [COMMA] + PrintMembers(members.rest))
  }

  predicate Blank(s: Text) {
    forall i :: 0 <= i < |s| ==> JsonSpace(s[i])
  }

  /** The text of a number, true, false or null, as far as the scanner looks at it. */
  predicate Bare(s: Text) {
    && s != [] && s[0] != QUOTE && s[0] != OPEN_BRACE && s[0] != OPEN_BRACKET
    && forall i :: 0 <= i < |s| ==> !Ends(s[i])
  }

  predicate WellFormed(v: Value) {
    match v
    case Str(content) => Decode(content).Some?
    case Scalar(text) => Bare(text)
    case Arr(open, items) => Blank(open) && WellFormedItems(items)
    case Obj(open, members) => Blank(open) && WellFormedMembers(members)
  }

  predicate WellFormedItems(items: Items) {
    items.Item? ==> Blank(items.before) && WellFormed(items.value) && Blank(items.after) && WellFormedItems(items.rest)
  }

  predicate WellFormedMembers(members: Members) {
    members.Member? ==>
      && Blank(members.before) && Decode(members.key).Some? && Blank(members.mid) && Blank(members.between)
      && WellFormed(members.value) && Blank(members.after) && WellFormedMembers(members.rest)
  }

  // ----- What the scanner should answer ----------------------------------------------------------

  /** The decoded member names of one object, in order. */
  function Names(members: Members): seq<Text>
    requires WellFormedMembers(members)
  {
    if members.NoMembers? then [] else [Decode(members.key).value] + Names(members.rest)
  }

  ghost predicate Repeats(names: seq<Text>) {
    exists i, j :: 0 <= i < j < |names| && names[i] == names[j]
  }

  /** Some object somewhere in the value repeats a decoded member name. */
  ghost predicate HasDuplicate(v: Value)
    requires WellFormed(v)
  {
    match v
    case Str(_) => false
    case Scalar(_) => false
    case Arr(_, items) => ItemsHaveDuplicate(items)
    case Obj(_, members) => Repeats(Names(members)) || MembersHaveDuplicate(members)
  }

  ghost predicate ItemsHaveDuplicate(items: Items)
    requires WellFormedItems(items)
  {
    items.Item? && (HasDuplicate(items.value) || ItemsHaveDuplicate(items.rest))
  }

  ghost predicate MembersHaveDuplicate(members: Members)
    requires WellFormedMembers(members)
  {
    members.Member? && (HasDuplicate(members.value) || MembersHaveDuplicate(members.rest))
  }

  // ----- The scan on any text -----------------------------------------------------------------

  /** Duplicate: a repeated name was found. At: the index after the value. Bad: the scanner throws. */
  datatype Outcome = Duplicate | At(index: nat) | Bad

  function Skip(s: Text, i: nat): (r: nat)
    requires i <= |s|
    ensures i <= r <= |s|
    decreases |s| - i
  {
    if i < |s| && Space(s[i]) then Skip(s, i + 1) else i
  }

  /** The index after the closing quote of a string whose first unit after the quote is at i. */
  function CloseQuote(s: Text, i: nat): (r: Option<nat>)
    ensures r.Some? ==> i < r.value <= |s|
    decreases |s| - i
  {
    if i >= |s| then None
    else if s[i] == BACKSLASH then CloseQuote(s, i + 2)
    else if s[i] == QUOTE then Some(i + 1)
    else CloseQuote(s, i + 1)
  }

  datatype Parsed = Name(name: Text, index: nat) | NoName

  /** parseString. */
  function ParseString(s: Text, i: nat): (r: Parsed)
    ensures r.Name? ==> i + 1 < r.index <= |s|
  {
    if i >= |s| || s[i] != QUOTE then NoName
    else
      match CloseQuote(s, i + 1)
      case None => NoName
      case Some(end) =>
        match Decode(s[i + 1..end - 1])
        case None => NoName
        case Some(name) => Name(name, end)
  }

  function SkipBare(s: Text, i: nat): (r: nat)
    requires i <= |s|
    ensures i <= r <= |s|
    decreases |s| - i
  {
    if i < |s| && !Ends(s[i]) then SkipBare(s, i + 1) else i
  }

  /** parseValue. */
  function ParseValue(s: Text, from: nat): (r: Outcome)
    requires from <= |s|
    ensures r.At? ==> from <= r.index <= |s|
    decreases |s| - from, 0
  {
    var i := Skip(s, from);
    if i < |s| && s[i] == QUOTE then
      var parsed := ParseString(s, i);
      if parsed.NoName? then Bad else At(parsed.index)
    else if i < |s| && s[i] == OPEN_BRACE then
      var k := Skip(s, i + 1);
      if k < |s| && s[k] == CLOSE_BRACE then At(k + 1) else ParseMembers(s, k, {})
    else if i < |s| && s[i] == OPEN_BRACKET then
      var k := Skip(s, i + 1);
      if k < |s| && s[k] == CLOSE_BRACKET then At(k + 1) else ParseItems(s, k)
    else At(SkipBare(s, i))
  }

  function ParseItems(s: Text, i: nat): (r: Outcome)
    requires i <= |s|
    ensures r.At? ==> i <= r.index <= |s|
    decreases |s| - i, 1
  {
    if i >= |s| then Bad
    else
      match ParseValue(s, i)
      case Duplicate => Duplicate
      case Bad => Bad
      case At(end) =>
        var k := Skip(s, end);
        if k < |s| && s[k] == CLOSE_BRACKET then At(k + 1)
        else if k < |s| && s[k] == COMMA then ParseItems(s, k + 1)
        else Bad
  }

  function ParseMembers(s: Text, i: nat, keys: set<Text>): (r: Outcome)
    requires i <= |s|
    ensures r.At? ==> i <= r.index <= |s|
    decreases |s| - i, 1
  {
    if i >= |s| then Bad
    else
      match ParseString(s, Skip(s, i))
      case NoName => Bad
      case Name(name, after) =>
        if name in keys then Duplicate
        else
          var colon := Skip(s, after);
          if colon >= |s| || s[colon] != COLON then Bad
          else
            match ParseValue(s, colon + 1)
            case Duplicate => Duplicate
            case Bad => Bad
            case At(end) =>
              var k := Skip(s, end);
              if k < |s| && s[k] == CLOSE_BRACE then At(k + 1)
              else if k < |s| && s[k] == COMMA then ParseMembers(s, k + 1, keys + {name})
              else Bad
  }

  /** hasDuplicateJsonObjectKey: anything thrown counts as no duplicate. */
  predicate Scan(s: Text) {
    ParseValue(s, 0).Duplicate?
  }

  // ----- Occurrences of one text in another -------------------------------------------------------

  ghost predicate Occurs(s: Text, i: nat, part: Text) {
    i + |part| <= |s| && s[i..i + |part|] == part
  }

  lemma Split(s: Text, i: nat, a: Text, b: Text)
    requires Occurs(s, i, a + b)
    ensures Occurs(s, i, a) && Occurs(s, i + |a|, b)
  {
    assert s[i..i + |a|] == (a + b)[..|a|] == a;
    assert s[i + |a|..i + |a| + |b|] == (a + b)[|a|..] == b;
  }

  lemma UnitAt(s: Text, i: nat, part: Text, k: nat)
    requires Occurs(s, i, part) && k < |part|
    ensures s[i + k] == part[k]
  {
    assert s[i..i + |part|][k] == s[i + k];
  }

  lemma {:induction false} SkipsBlank(s: Text, i: nat, blank: Text)
    requires Occurs(s, i, blank) && Blank(blank)
    ensures Skip(s, i) == Skip(s, i + |blank|)
    decreases |blank|
  {
    if blank != [] {
      UnitAt(s, i, blank, 0);
      assert blank == [blank[0]] + blank[1..];
      Split(s, i, [blank[0]], blank[1..]);
      assert JsonSpace(blank[0]);
      SkipsBlank(s, i + 1, blank[1..]);
    }
  }

  /** After any whitespace the scan stands at the first unit that is no space. */
  lemma SkipsTo(s: Text, i: nat, blank: Text)
    requires Occurs(s, i, blank) && Blank(blank) && i + |blank| < |s| && !Space(s[i + |blank|])
    ensures Skip(s, i) == i + |blank|
  {
    SkipsBlank(s, i, blank);
  }

  lemma HexIsPlain(u: Unit)
    requires Hex(u).Some?
    ensures u != QUOTE && u != BACKSLASH
  {
  }

  /** What the first unit of a decodable literal says about the rest. */
  lemma DecodeStep(content: Text)
    requires content != [] && Decode(content).Some?
    ensures content[0] != QUOTE
    ensures content[0] != BACKSLASH ==> Decode(content[1..]).Some?
    ensures content[0] == BACKSLASH ==> |content| >= 2
    ensures content[0] == BACKSLASH && content[1] != 0x75 ==> Decode(content[2..]).Some?
    ensures content[0] == BACKSLASH && content[1] == 0x75 ==>
              |content| >= 6 && Hex(content[2]).Some? && Hex(content[3]).Some? && Hex(content[4]).Some?
                  && Hex(content[5]).Some?
              && Decode(content[6..]).Some?
  {
    hide Hex, Escape;
  }

  /** The end of a string literal is found behind every escape. */
  lemma {:induction false} QuoteCloses(s: Text, i: nat, content: Text)
    requires Decode(content).Some? && Occurs(s, i, content + [QUOTE])
    ensures CloseQuote(s, i) == Some(i + |content| + 1)
    decreases |content|
  {
    hide Decode, Hex, Occurs;
    var all := content + [QUOTE];
    UnitAt(s, i, all, 0);
    InText(s, i, all);
    if content != [] {
      DecodeStep(content);
      var n := if content[0] != BACKSLASH then 1 else if content[1] != 0x75 then 2 else 6;
      assert all == content[..n] + (content[n..] + [QUOTE]);
      Split(s, i, content[..n], content[n..] + [QUOTE]);
      QuoteCloses(s, i + n, content[n..]);
      if n == 6 {
        HexRun(s, i, content);
      }
    }
  }

  lemma InText(s: Text, i: nat, part: Text)
    requires Occurs(s, i, part)
    ensures i + |part| <= |s|
  {
  }

  lemma HexUnit(s: Text, i: nat, content: Text, k: nat)
    requires k < |content| && Occurs(s, i, content) && Hex(content[k]).Some?
    ensures i + k < |s| && CloseQuote(s, i + k) == CloseQuote(s, i + k + 1)
  {
    UnitAt(s, i, content, k);
    HexIsPlain(content[k]);
  }

  lemma HexRun(s: Text, i: nat, content: Text)
    requires |content| >= 6 && Occurs(s, i, content[..6])
    requires Hex(content[2]).Some? && Hex(content[3]).Some? && Hex(content[4]).Some? && Hex(content[5]).Some?
    ensures CloseQuote(s, i + 2) == CloseQuote(s, i + 6)
  {
    hide Hex, CloseQuote, Occurs;
    HexUnit(s, i, content[..6], 2);
    HexUnit(s, i, content[..6], 3);
    HexUnit(s, i, content[..6], 4);
    HexUnit(s, i, content[..6], 5);
  }

  lemma StringParses(s: Text, i: nat, content: Text)
    requires Decode(content).Some? && Occurs(s, i, [QUOTE] + content + [QUOTE])
    ensures ParseString(s, i) == Name(Decode(content).value, i + |content| + 2)
  {
    hide Decode, CloseQuote;
    UnitAt(s, i, [QUOTE] + content + [QUOTE], 0);
    assert [QUOTE] + content + [QUOTE] == [QUOTE] + (content + [QUOTE]);
    Split(s, i, [QUOTE], content + [QUOTE]);
    QuoteCloses(s, i + 1, content);
    Split(s, i + 1, content, [QUOTE]);
    assert s[i + 1..i + 1 + |content|] == content;
  }

  lemma {:induction false} BareSkips(s: Text, i: nat, text: Text)
    requires Occurs(s, i, text) && (forall k :: 0 <= k < |text| ==> !Ends(text[k]))
    requires i + |text| == |s| || Ends(s[i + |text|])
    ensures SkipBare(s, i) == i + |text|
    decreases |text|
  {
    if text != [] {
      UnitAt(s, i, text, 0);
      assert text == [text[0]] + text[1..];
      Split(s, i, [text[0]], text[1..]);
      BareSkips(s, i + 1, text[1..]);
    }
  }

  /** The structural units: each one stops a bare scalar, and none is a space. */
  lemma Structural(u: Unit)
    requires u == COMMA || u == CLOSE_BRACKET || u == CLOSE_BRACE
    ensures Ends(u) && !Space(u)
  {
  }

  lemma NotASpace(u: Unit)
    requires !Ends(u) || u == COLON || u == OPEN_BRACKET || u == OPEN_BRACE || u == QUOTE
    ensures !Space(u)
  {
  }

  lemma NotStructural(u: Unit)
    requires !Ends(u)
    ensures u != CLOSE_BRACKET && u != CLOSE_BRACE && u != COMMA && !Space(u)
  {
  }

  lemma StandsStill(s: Text, i: nat)
    requires i < |s| && !Space(s[i])
    ensures Skip(s, i) == i
  {
  }

  lemma ParseArrayStep(s: Text, i: nat, k: nat)
    requires i < |s| && s[i] == OPEN_BRACKET && Skip(s, i + 1) == k < |s|
    ensures ParseValue(s, i) == if s[k] == CLOSE_BRACKET then At(k + 1) else ParseItems(s, k)
  {
    NotASpace(s[i]);
    StandsStill(s, i);
    hide Skip, Space, ParseItems, ParseMembers, ParseString, SkipBare;
  }

  lemma ParseObjectStep(s: Text, i: nat, k: nat)
    requires i < |s| && s[i] == OPEN_BRACE && Skip(s, i + 1) == k < |s|
    ensures ParseValue(s, i) == if s[k] == CLOSE_BRACE then At(k + 1) else ParseMembers(s, k, {})
  {
    NotASpace(s[i]);
    StandsStill(s, i);
    hide Skip, Space, ParseItems, ParseMembers, ParseString, SkipBare;
  }

  // ----- The scan on printed JSON --------------------------------------------------------------------

  ghost predicate Delimited(s: Text, end: nat) {
    end == |s| || (end < |s| && Ends(s[end]))
  }

  lemma FirstUnit(v: Value)
    requires WellFormed(v)
    ensures Print(v) != [] && !Ends(Print(v)[0])
  {
  }

  function Answer(duplicate: bool, end: nat): Outcome {
    if duplicate then Duplicate else At(end)
  }

  /** Whitespace before a value does not change how it is parsed. */
  lemma SkipBefore(s: Text, i: nat, j: nat)
    requires i <= |s| && j <= |s| && Skip(s, i) == Skip(s, j)
    ensures ParseValue(s, i) == ParseValue(s, j)
  {
  }

  /** A value standing at i is scanned to its end, or a repeated name in it is found. */
  lemma {:induction false} ValueScans(s: Text, i: nat, v: Value)
    requires WellFormed(v) && Occurs(s, i, Print(v)) && Delimited(s, i + |Print(v)|)
    ensures ParseValue(s, i) == Answer(HasDuplicate(v), i + |Print(v)|)
    decreases v, 1
  {
    hide Decode, CloseQuote, ParseItems, ParseMembers, PrintItems, PrintMembers, WellFormedItems, WellFormedMembers;
    FirstUnit(v);
    UnitAt(s, i, Print(v), 0);
    match v
    case Str(content) => StringParses(s, i, content);
    case Scalar(text) => BareSkips(s, i, text);
    case Arr(open, items) => ArrayScans(s, i, v);
    case Obj(open, members) => ObjectScans(s, i, v);
  }

  /** Where the parts of an array stand. */
  lemma ArrayLayout(s: Text, i: nat, v: Value)
    requires v.Arr? && Occurs(s, i, Print(v))
    ensures i < |s| && s[i] == OPEN_BRACKET && Occurs(s, i + 1, v.open)
    ensures var inner := i + 1 + |v.open|;
            if v.items.NoItems? then inner < |s| && s[inner] == CLOSE_BRACKET && i + |Print(v)| == inner + 1
            else Occurs(s, inner, PrintItems(v.items)) && i + |Print(v)| == inner + |PrintItems(v.items)|
  {
    hide PrintItems, Occurs;
    var tail := if v.items.NoItems? then [CLOSE_BRACKET] else PrintItems(v.items);
    assert Print(v) == [OPEN_BRACKET] + (v.open + tail);
    Split(s, i, [OPEN_BRACKET], v.open + tail);
    Split(s, i + 1, v.open, tail);
    UnitAt(s, i, [OPEN_BRACKET], 0);
    InText(s, i, [OPEN_BRACKET]);
    InText(s, i + 1 + |v.open|, tail);
    if v.items.NoItems? {
      UnitAt(s, i + 1 + |v.open|, tail, 0);
    }
  }

  lemma {:induction false} ArrayScans(s: Text, i: nat, v: Value)
    requires v.Arr? && WellFormed(v) && Occurs(s, i, Print(v))
    ensures ParseValue(s, i) == Answer(HasDuplicate(v), i + |Print(v)|)
    decreases v, 0
  {
    hide ParseValue, ParseItems, PrintItems, Print, Occurs, WellFormedItems, Blank, Space, Ends, Skip;
    ArrayLayout(s, i, v);
    if v.items.NoItems? {
      Structural(s[i + 1 + |v.open|]);
      SkipsTo(s, i + 1, v.open);
      ParseArrayStep(s, i, i + 1 + |v.open|);
    } else {
      hide ItemsHaveDuplicate;
      ItemsLayout(s, i + 1 + |v.open|, v.items);
      ItemsAreGood(v.items);
      var k := ValueStart(s, i + 1, v.open, v.items.before, v.items.value);
      NotStructural(s[k]);
      ParseArrayStep(s, i, k);
      ItemsScan(s, i + 1 + |v.open|, v.items, k);
    }
  }

  /** Two stretches of whitespace and then a value: one skip passes both. */
  lemma ValueStart(s: Text, i: nat, first: Text, second: Text, v: Value) returns (k: nat)
    requires Occurs(s, i, first) && Occurs(s, i + |first|, second) && Occurs(s, i + |first| + |second|, Print(v))
    requires Blank(first) && Blank(second) && WellFormed(v)
    ensures i <= |s| && k == Skip(s, i) == i + |first| + |second| && k < |s| && !Ends(s[k])
  {
    hide Occurs, Print, WellFormed, Blank;
    k := i + |first| + |second|;
    FirstUnit(v);
    UnitAt(s, k, Print(v), 0);
    InText(s, k, Print(v));
    InText(s, i, first);
    InText(s, i + |first|, second);
    SkipsBlank(s, i, first);
    SkipsTo(s, i + |first|, second);
  }

  lemma ItemsAreGood(items: Items)
    requires items.Item? && WellFormedItems(items)
    ensures Blank(items.before) && WellFormed(items.value) && Blank(items.after) && WellFormedItems(items.rest)
    ensures ItemsHaveDuplicate(items) == (HasDuplicate(items.value) || ItemsHaveDuplicate(items.rest))
    ensures items.rest.NoItems? ==> !ItemsHaveDuplicate(items.rest)
  {
  }

  lemma SplitThree(s: Text, i: nat, a: Text, b: Text, c: Text, rest: Text)
    requires Occurs(s, i, a + (b + (c + rest)))
    ensures Occurs(s, i, a) && Occurs(s, i + |a|, b)
    ensures Occurs(s, i + |a| + |b|, c) && Occurs(s, i + |a| + |b| + |c|, rest)
  {
    hide Occurs;
    Split(s, i, a, b + (c + rest));
    Split(s, i + |a|, b, c + rest);
    Split(s, i + |a| + |b|, c, rest);
  }

  /** Where the parts of an item stand: the whitespace, the value, the whitespace, the delimiter. */
  lemma ItemsLayout(s: Text, i: nat, items: Items)
    requires items.Item? && Occurs(s, i, PrintItems(items))
    ensures var start := i + |items.before|;
            var end := start + |Print(items.value)|;
            var stop := end + |items.after|;
            && Occurs(s, i, items.before) && Occurs(s, start, Print(items.value)) && Occurs(s, end, items.after)
            && stop < |s|
            && if items.rest.NoItems? then s[stop] == CLOSE_BRACKET && i + |PrintItems(items)| == stop + 1
               else s[stop] == COMMA && Occurs(s, stop + 1, PrintItems(items.rest))
                    && i + |PrintItems(items)| == stop + 1 + |PrintItems(items.rest)|
  {
    hide Occurs;
    var value := Print(items.value);
    hide Print;
    var tail := if items.rest.NoItems? then [CLOSE_BRACKET] else [COMMA] + PrintItems(items.rest);
    var end := i + |items.before| + |value|;
    assert PrintItems(items) == items.before + (value + (items.after + tail));
    hide PrintItems;
    SplitThree(s, i, items.before, value, items.after, tail);
    UnitAt(s, end + |items.after|, tail, 0);
    InText(s, end + |items.after|, tail);
    if !items.rest.NoItems? {
      Split(s, end + |items.after|, [COMMA], PrintItems(items.rest));
    }
  }

  lemma ParseItemsStep(s: Text, j: nat, end: nat, k: nat)
    requires j < |s| && ParseValue(s, j) == At(end) && Skip(s, end) == k < |s|
    ensures s[k] == CLOSE_BRACKET ==> ParseItems(s, j) == At(k + 1)
    ensures s[k] == COMMA ==> ParseItems(s, j) == ParseItems(s, k + 1)
  {
    hide ParseValue, Skip;
  }

  lemma ParseItemsStops(s: Text, j: nat)
    requires j < |s| && ParseValue(s, j).Duplicate?
    ensures ParseItems(s, j).Duplicate?
  {
    hide ParseValue;
  }

  /** The items from i on, entered anywhere in the whitespace before the first one. */
  lemma {:induction false} ItemsScan(s: Text, i: nat, items: Items, j: nat)
    requires items.Item? && WellFormedItems(items) && Occurs(s, i, PrintItems(items))
    requires i <= j <= i + |items.before|
    ensures ParseItems(s, j) == Answer(ItemsHaveDuplicate(items), i + |PrintItems(items)|)
    decreases items
  {
    hide ParseItems, ParseValue, PrintItems, Print, Occurs, WellFormedItems, WellFormed, Blank, ItemsHaveDuplicate,
         HasDuplicate, Skip,
      Delimited, Space, Ends;
    ItemsAreGood(items);
    ItemsLayout(s, i, items);
    var start := i + |items.before|;
    var end := start + |Print(items.value)|;
    var stop := end + |items.after|;
    Structural(s[stop]);
    EndsValue(s, end, items.after);
    ValueScans(s, start, items.value);
    SkipsInto(s, i, items.before, j, items.value);
    SkipBefore(s, j, start);
    SkipsTo(s, end, items.after);
    if HasDuplicate(items.value) {
      ParseItemsStops(s, j);
    } else {
      ParseItemsStep(s, j, end, stop);
      if !items.rest.NoItems? {
        ItemsScan(s, stop + 1, items.rest, stop + 1);
      }
    }
  }

  /** What follows a value ends a bare scalar. */
  lemma EndsValue(s: Text, end: nat, after: Text)
    requires Occurs(s, end, after) && Blank(after) && end + |after| < |s| && Ends(s[end + |after|])
    ensures Delimited(s, end)
  {
    if after != [] {
      UnitAt(s, end, after, 0);
      assert JsonSpace(after[0]);
    }
  }

  lemma SkipsInto(s: Text, i: nat, before: Text, j: nat, v: Value)
    requires Occurs(s, i, before) && Blank(before) && i <= j <= i + |before|
    requires WellFormed(v) && Occurs(s, i + |before|, Print(v))
    ensures j < |s| && i + |before| < |s| && Skip(s, j) == i + |before| == Skip(s, i + |before|)
  {
    hide Print, WellFormed, Occurs, Space, Ends, JsonSpace, Skip;
    FirstUnit(v);
    UnitAt(s, i + |before|, Print(v), 0);
    InText(s, i + |before|, Print(v));
    NotASpace(s[i + |before|]);
    StandsStill(s, i + |before|);
    var n := j - i;
    assert before == before[..n] + before[n..];
    Split(s, i, before[..n], before[n..]);
    assert Blank(before[n..]);
    SkipsTo(s, j, before[n..]);
  }

  lemma ObjectLayout(s: Text, i: nat, v: Value)
    requires v.Obj? && Occurs(s, i, Print(v))
    ensures i < |s| && s[i] == OPEN_BRACE && Occurs(s, i + 1, v.open)
    ensures var inner := i + 1 + |v.open|;
            if v.members.NoMembers? then inner < |s| && s[inner] == CLOSE_BRACE && i + |Print(v)| == inner + 1
            else Occurs(s, inner, PrintMembers(v.members)) && i + |Print(v)| == inner + |PrintMembers(v.members)|
  {
    hide PrintMembers, Occurs;
    var tail := if v.members.NoMembers? then [CLOSE_BRACE] else PrintMembers(v.members);
    assert Print(v) == [OPEN_BRACE] + (v.open + tail);
    Split(s, i, [OPEN_BRACE], v.open + tail);
    Split(s, i + 1, v.open, tail);
    UnitAt(s, i, [OPEN_BRACE], 0);
    InText(s, i, [OPEN_BRACE]);
    InText(s, i + 1 + |v.open|, tail);
    if v.members.NoMembers? {
      UnitAt(s, i + 1 + |v.open|, tail, 0);
    }
  }

  lemma {:induction false} ObjectScans(s: Text, i: nat, v: Value)
    requires v.Obj? && WellFormed(v) && Occurs(s, i, Print(v))
    ensures ParseValue(s, i) == Answer(HasDuplicate(v), i + |Print(v)|)
    decreases v, 0
  {
    hide ParseValue, ParseMembers, PrintMembers, Print, Occurs, WellFormedMembers, Blank, MembersHaveDuplicate, Names,
         Repeats, Meets,
      Decode, Space, Ends, Skip;
    NoNamesMeet(Names(v.members));
    ObjectLayout(s, i, v);
    if v.members.NoMembers? {
      Structural(s[i + 1 + |v.open|]);
      SkipsTo(s, i + 1, v.open);
      EmptyHasNoNames(v.members);
      ParseObjectStep(s, i, i + 1 + |v.open|);
    } else {
      var m := v.members;
      NameLayout(s, i + 1 + |v.open|, m);
      MembersAreGood(m);
      KeyPrints(m.key);
      var k := ValueStart(s, i + 1, v.open, m.before, Str(m.key));
      NotStructural(s[k]);
      ParseObjectStep(s, i, k);
      MembersScan(s, i + 1 + |v.open|, m, k, {});
    }
  }

  lemma EmptyHasNoNames(m: Members)
    requires m.NoMembers?
    ensures !Repeats(Names(m)) && !MembersHaveDuplicate(m)
  {
  }

  lemma KeyPrints(key: Text)
    requires Decode(key).Some?
    ensures Print(Str(key)) == [QUOTE] + key + [QUOTE] && WellFormed(Str(key))
  {
  }

  ghost predicate Meets(names: seq<Text>, keys: set<Text>) {
    exists i :: 0 <= i < |names| && names[i] in keys
  }

  lemma NoNamesMeet(names: seq<Text>)
    ensures !Meets(names, {})
  {
  }

  lemma NameStep(name: Text, rest: seq<Text>, keys: set<Text>)
    requires name !in keys
    ensures Meets([name] + rest, keys) || Repeats([name] + rest) <==> Meets(rest, keys + {name}) || Repeats(rest)
  {
    if Meets([name] + rest, keys) || Repeats([name] + rest) {
      NameStepDown(name, rest, keys);
    }
    if Meets(rest, keys + {name}) || Repeats(rest) {
      NameStepUp(name, rest, keys);
    }
    hide Meets, Repeats;
  }

  lemma NameStepDown(name: Text, rest: seq<Text>, keys: set<Text>)
    requires name !in keys && (Meets([name] + rest, keys) || Repeats([name] + rest))
    ensures Meets(rest, keys + {name}) || Repeats(rest)
  {
    var all := [name] + rest;
    if i :| 0 <= i < |all| && all[i] in keys {
      assert rest[i - 1] in keys + {name};
    } else {
      var i, j :| 0 <= i < j < |all| && all[i] == all[j];
      if i == 0 {
        assert rest[j - 1] in keys + {name};
      } else {
        assert rest[i - 1] == rest[j - 1];
      }
    }
  }

  lemma NameStepUp(name: Text, rest: seq<Text>, keys: set<Text>)
    requires name !in keys && (Meets(rest, keys + {name}) || Repeats(rest))
    ensures Meets([name] + rest, keys) || Repeats([name] + rest)
  {
    var all := [name] + rest;
    if i :| 0 <= i < |rest| && rest[i] in keys + {name} {
      if rest[i] == name {
        assert all[0] == all[i + 1];
      } else {
        assert all[i + 1] in keys;
      }
    } else {
      var i, j :| 0 <= i < j < |rest| && rest[i] == rest[j];
      assert all[i + 1] == all[j + 1];
    }
  }

  lemma MembersAreGood(m: Members)
    requires m.Member? && WellFormedMembers(m)
    ensures Blank(m.before) && Decode(m.key).Some? && Blank(m.mid) && Blank(m.between)
    ensures WellFormed(m.value) && Blank(m.after) && WellFormedMembers(m.rest)
    ensures Names(m) == [Decode(m.key).value] + Names(m.rest)
    ensures MembersHaveDuplicate(m) == (HasDuplicate(m.value) || MembersHaveDuplicate(m.rest))
    ensures m.rest.NoMembers? ==> !MembersHaveDuplicate(m.rest) && Names(m.rest) == []
  {
  }

  /** A member from its colon on. */
  function MemberRest(m: Members): Text
    requires m.Member?
  {
    [COLON] + (m.between + (Print(m.value) + (m.after + MemberTail(m))))
  }

  lemma MembersPrint(m: Members)
    requires m.Member?
    ensures PrintMembers(m) == m.before + (([QUOTE] + m.key + [QUOTE]) + (m.mid + MemberRest(m)))
  {
    hide Print;
  }

  /** Where the name of a member stands, and where its colon does. */
  lemma NameLayout(s: Text, i: nat, m: Members)
    requires m.Member? && Occurs(s, i, PrintMembers(m))
    ensures var start := i + |m.before|;
            var colon := start + |m.key| + 2 + |m.mid|;
            && Occurs(s, i, m.before) && Occurs(s, start, [QUOTE] + m.key + [QUOTE])
            && Occurs(s, start + |m.key| + 2, m.mid)
            && Occurs(s, colon, MemberRest(m)) && i + |PrintMembers(m)| == colon + |MemberRest(m)|
  {
    MembersPrint(m);
    hide Occurs, PrintMembers, MemberRest;
    var key := [QUOTE] + m.key + [QUOTE];
    Split(s, i, m.before, key + (m.mid + MemberRest(m)));
    var start := i + |m.before|;
    Split(s, start, key, m.mid + MemberRest(m));
    Split(s, start + |key|, m.mid, MemberRest(m));
  }

  /** Where the value of a member stands, and what follows it. */
  lemma RestLayout(s: Text, colon: nat, m: Members)
    requires m.Member? && Occurs(s, colon, MemberRest(m))
    ensures var value := colon + 1 + |m.between|;
            var end := value + |Print(m.value)|;
            var stop := end + |m.after|;
            && colon < |s| && s[colon] == COLON && Occurs(s, colon + 1, m.between) && Occurs(s, value, Print(m.value))
            && Occurs(s, end, m.after) && stop < |s|
            && if m.rest.NoMembers? then s[stop] == CLOSE_BRACE && colon + |MemberRest(m)| == stop + 1
               else s[stop] == COMMA && Occurs(s, stop + 1, PrintMembers(m.rest))
                    && colon + |MemberRest(m)| == stop + 1 + |PrintMembers(m.rest)|
  {
    hide Occurs, Print, PrintMembers;
    var value := Print(m.value);
    var tail := MemberTail(m);
    var c := m.after + tail;
    var b := value + c;
    var a := m.between + b;
    assert MemberRest(m) == [COLON] + a;
    hide MemberRest;
    Split(s, colon, [COLON], a);
    UnitAt(s, colon, [COLON], 0);
    InText(s, colon, [COLON]);
    Split(s, colon + 1, m.between, b);
    var from := colon + 1 + |m.between|;
    Split(s, from, value, c);
    Split(s, from + |value|, m.after, tail);
    TailLayout(s, from + |value| + |m.after|, m);
  }

  /** What follows the whitespace after a member's value. */
  function MemberTail(m: Members): Text
    requires m.Member?
  {
    if m.rest.NoMembers? then [CLOSE_BRACE] else [COMMA] + PrintMembers(m.rest)
  }

  lemma TailLayout(s: Text, stop: nat, m: Members)
    requires m.Member? && Occurs(s, stop, MemberTail(m))
    ensures stop < |s|
    ensures if m.rest.NoMembers? then s[stop] == CLOSE_BRACE && |MemberTail(m)| == 1
            else
              && s[stop] == COMMA && Occurs(s, stop + 1, PrintMembers(m.rest))
              && |MemberTail(m)| == 1 + |PrintMembers(m.rest)|
  {
    hide Occurs, PrintMembers;
    UnitAt(s, stop, MemberTail(m), 0);
    InText(s, stop, MemberTail(m));
    if !m.rest.NoMembers? {
      Split(s, stop, [COMMA], PrintMembers(m.rest));
    }
  }

  lemma ParseMembersStep(s: Text, j: nat, keys: set<Text>, name: Text, after: nat, colon: nat)
    requires j < |s| && ParseString(s, Skip(s, j)) == Name(name, after) && after <= |s|
             && Skip(s, after) == colon < |s| && s[colon] == COLON
    ensures name in keys ==> ParseMembers(s, j, keys).Duplicate?
    ensures name !in keys && ParseValue(s, colon + 1).Duplicate? ==> ParseMembers(s, j, keys).Duplicate?
    ensures name !in keys && ParseValue(s, colon + 1).At? ==>
              var k := Skip(s, ParseValue(s, colon + 1).index);
              k < |s| ==>
                && (s[k] == CLOSE_BRACE ==> ParseMembers(s, j, keys) == At(k + 1))
                && (s[k] == COMMA ==> ParseMembers(s, j, keys) == ParseMembers(s, k + 1, keys + {name}))
  {
    hide ParseValue, Skip, ParseString;
  }

  /** The members from i on, entered anywhere in the whitespace before the first one. */
  lemma {:induction false} MembersScan(s: Text, i: nat, m: Members, j: nat, keys: set<Text>)
    requires m.Member? && WellFormedMembers(m) && Occurs(s, i, PrintMembers(m))
    requires i <= j <= i + |m.before|
    ensures ParseMembers(s, j, keys) ==
            Answer(Meets(Names(m), keys) || Repeats(Names(m)) || MembersHaveDuplicate(m), i + |PrintMembers(m)|)
    decreases m
  {
    hide MemberRest, ParseMembers, ParseValue, ParseString, PrintMembers, Print, Occurs, WellFormedMembers, WellFormed,
         Blank, MembersHaveDuplicate,
      HasDuplicate, Skip, Delimited, Names, Decode, Meets, Repeats, Space, Ends;
    MembersAreGood(m);
    NameLayout(s, i, m);
    RestLayout(s, i + |m.before| + |m.key| + 2 + |m.mid|, m);
    var name := Decode(m.key).value;
    var start := i + |m.before|;
    var after := start + |m.key| + 2;
    var colon := after + |m.mid|;
    var value := colon + 1 + |m.between|;
    var end := value + |Print(m.value)|;
    var stop := end + |m.after|;
    KeyPrints(m.key);
    Structural(s[stop]);
    NotASpace(s[colon]);
    SkipsInto(s, i, m.before, j, Str(m.key));
    StringParses(s, start, m.key);
    SkipsTo(s, after, m.mid);
    EndsValue(s, end, m.after);
    ValueScans(s, value, m.value);
    SkipsInto(s, colon + 1, m.between, colon + 1, m.value);
    SkipBefore(s, colon + 1, value);
    SkipsTo(s, end, m.after);
    ParseMembersStep(s, j, keys, name, after, colon);
    if name in keys {
      FirstMeets(Names(m), keys);
    } else {
      NameStep(name, Names(m.rest), keys);
      if !HasDuplicate(m.value) {
        if m.rest.NoMembers? {
          NothingMeets(keys + {name});
        } else {
          MembersScan(s, stop + 1, m.rest, stop + 1, keys + {name});
        }
      }
    }
  }

  lemma FirstMeets(names: seq<Text>, keys: set<Text>)
    requires names != [] && names[0] in keys
    ensures Meets(names, keys)
  {
  }

  lemma NothingMeets(keys: set<Text>)
    ensures !Meets([], keys) && !Repeats([])
  {
  }

  lemma Whole(a: Text, b: Text)
    ensures Occurs(a + b, 0, a + b)
  {
    assert (a + b)[0..|a + b|] == a + b;
  }

  /**
   The scanner is exact on printed JSON: whatever whitespace and escapes the text uses, it answers
   yes if and only if some object in it repeats a decoded member name.
   */
  lemma ScanIsExact(before: Text, v: Value, after: Text)
    requires WellFormed(v) && Blank(before) && Blank(after)
    ensures Scan(before + Print(v) + after) <==> HasDuplicate(v)
  {
    hide WellFormed, Print, HasDuplicate, ParseValue, Skip, Blank, Delimited, Space, Ends, Occurs;
    var s := before + Print(v) + after;
    Framed(before, Print(v), after);
    DelimitedEnd(s, |before| + |Print(v)|, after);
    ValueScans(s, |before|, v);
    SkipsInto(s, 0, before, 0, v);
    SkipBefore(s, 0, |before|);
  }

  lemma Framed(a: Text, b: Text, c: Text)
    ensures Occurs(a + b + c, 0, a) && Occurs(a + b + c, |a|, b) && Occurs(a + b + c, |a| + |b|, c)
  {
    assert a + b + c == a + (b + c);
    Whole(a, b + c);
    hide Occurs;
    Split(a + b + c, 0, a, b + c);
    Split(a + b + c, |a|, b, c);
  }

  lemma DelimitedEnd(s: Text, end: nat, after: Text)
    requires Occurs(s, end, after) && Blank(after) && end + |after| == |s|
    ensures Delimited(s, end)
  {
    if after != [] {
      UnitAt(s, end, after, 0);
      assert JsonSpace(after[0]);
    }
  }

  lemma CloseQuoteStep(s: Text, i: nat)
    requires i < |s|
    ensures CloseQuote(s, i) == if s[i] == BACKSLASH then CloseQuote(s, i + 2)
                                else if s[i] == QUOTE then Some(i + 1)
                                else CloseQuote(s, i + 1)
  {
  }

  lemma NoCloseQuote(s: Text, i: nat)
    requires i >= |s|
    ensures CloseQuote(s, i) == None
  {
  }

  // ----- The answer in terms of how names are spelled -------------------------------------------------

  /** The member names of one object as they are written, in order. */
  function Keys(members: Members): seq<Text> {
    if members.NoMembers? then [] else [members.key] + Keys(members.rest)
  }

  /** Two members of one object spell the same name. */
  ghost predicate SameName(keys: seq<Text>) {
    exists i, j, name :: 0 <= i < j < |keys| && Spells(keys[i], name) && Spells(keys[j], name)
  }

  ghost predicate RepeatsName(v: Value) {
    match v
    case Str(_) => false
    case Scalar(_) => false
    case Arr(_, items) => ItemsRepeatName(items)
    case Obj(_, members) => SameName(Keys(members)) || MembersRepeatName(members)
  }

  ghost predicate ItemsRepeatName(items: Items) {
    items.Item? && (RepeatsName(items.value) || ItemsRepeatName(items.rest))
  }

  ghost predicate MembersRepeatName(members: Members) {
    members.Member? && (RepeatsName(members.value) || MembersRepeatName(members.rest))
  }

  lemma {:induction false} NamesAreSpelled(members: Members)
    requires WellFormedMembers(members)
    ensures |Keys(members)| == |Names(members)|
    ensures forall i :: 0 <= i < |Keys(members)| ==> Decode(Keys(members)[i]) == Some(Names(members)[i])
  {
    hide Decode;
    if members.Member? {
      NamesAreSpelled(members.rest);
    }
  }

  lemma RepeatsAreSameNames(members: Members)
    requires WellFormedMembers(members)
    ensures Repeats(Names(members)) <==> SameName(Keys(members))
  {
    hide Decode, Spells, Names, Keys, WellFormedMembers;
    NamesAreSpelled(members);
    var keys, names := Keys(members), Names(members);
    forall i, name | 0 <= i < |keys| ensures Spells(keys[i], name) <==> names[i] == name {
      DecodeIsSpelling(keys[i], name);
    }
    if i, j :| 0 <= i < j < |names| && names[i] == names[j] {
      assert Spells(keys[i], names[i]) && Spells(keys[j], names[i]);
    }
    if i, j, name :| 0 <= i < j < |keys| && Spells(keys[i], name) && Spells(keys[j], name) {
      assert names[i] == names[j];
    }
  }

  lemma {:induction false} DuplicatesAreRepeatedNames(v: Value)
    requires WellFormed(v)
    ensures HasDuplicate(v) <==> RepeatsName(v)
    decreases v, 1
  {
    hide SameName, Names, Repeats, Decode, Keys;
    match v
    case Str(_) =>
    case Scalar(_) =>
    case Arr(_, items) => ItemsRepeat(items);
    case Obj(_, members) =>
      RepeatsAreSameNames(members);
      MembersRepeat(members);
  }

  lemma {:induction false} ItemsRepeat(items: Items)
    requires WellFormedItems(items)
    ensures ItemsHaveDuplicate(items) <==> ItemsRepeatName(items)
    decreases items, 0
  {
    hide RepeatsName, HasDuplicate;
    if items.Item? {
      DuplicatesAreRepeatedNames(items.value);
      ItemsRepeat(items.rest);
    }
  }

  lemma {:induction false} MembersRepeat(members: Members)
    requires WellFormedMembers(members)
    ensures MembersHaveDuplicate(members) <==> MembersRepeatName(members)
    decreases members, 0
  {
    hide RepeatsName, HasDuplicate, Decode;
    if members.Member? {
      DuplicatesAreRepeatedNames(members.value);
      MembersRepeat(members.rest);
    }
  }

  /** The scan answers yes exactly when two members of one object, somewhere in the text, spell the same name. */
  lemma ScanFindsRepeatedNames(before: Text, v: Value, after: Text)
    requires WellFormed(v) && Blank(before) && Blank(after)
    ensures Scan(before + Print(v) + after) <==> RepeatsName(v)
  {
    ScanIsExact(before, v, after);
    DuplicatesAreRepeatedNames(v);
  }

  predicate Spaces(gap: Text) {
    forall i :: 0 <= i < |gap| ==> gap[i] == 0x20 || gap[i] == 9 || gap[i] == 10 || gap[i] == 13
  }

  predicate Digits(text: Text) {
    text != [] && forall i :: 0 <= i < |text| ==> 0x30 <= text[i] <= 0x39
  }

  /** A name and a number, one code unit after the other. */
  function Written(gap: Text, key: Text, value: Text): Text {
    gap + [0x22] + key + [0x22] + gap + [0x3A] + gap + value + gap
  }

  /** Two members of one object are found exactly when some name is spelled twice. */
  lemma TwoMembersScan(gap: Text, first: Text, one: Text, second: Text, two: Text, name: Text, other: Text)
    requires Spaces(gap) && Digits(one) && Digits(two) && Spells(first, name) && Spells(second, other)
    ensures Scan([0x7B] + Written(gap, first, one) + [0x2C] + Written(gap, second, two) + [0x7D]) <==> name == other
  {
    var later := Member(gap, second, gap, gap, Scalar(two), gap, NoMembers);
    var v := Obj([], Member(gap, first, gap, gap, Scalar(one), gap, later));
    TwoMembersPrint(gap, first, one, second, two);
    TwoMembersMean(gap, first, one, second, two, name, other);
    hide *;
    ScanIsExact([], v, []);
  }

  lemma TwoMembersMean(gap: Text, first: Text, one: Text, second: Text, two: Text, name: Text, other: Text)
    requires Spaces(gap) && Digits(one) && Digits(two) && Spells(first, name) && Spells(second, other)
    ensures var later := Member(gap, second, gap, gap, Scalar(two), gap, NoMembers);
            var v := Obj([], Member(gap, first, gap, gap, Scalar(one), gap, later));
            Blank([]) && WellFormed(v) && (HasDuplicate(v) <==> name == other)
  {
    DecodeIsSpelling(first, name);
    DecodeIsSpelling(second, other);
    assert Blank(gap) && WellFormed(Scalar(one)) && WellFormed(Scalar(two)) && WellFormedMembers(NoMembers);
    hide Decode, Spells, Blank;
    var later := Member(gap, second, gap, gap, Scalar(two), gap, NoMembers);
    var members := Member(gap, first, gap, gap, Scalar(one), gap, later);
    assert WellFormedMembers(later);
    assert Names(later) == [other];
    assert Names(members) == [name] + [other] == [name, other];
    assert !MembersHaveDuplicate(later);
    assert Repeats([name, other]) <==> name == other by {
      if name == other { assert [name, other][0] == [name, other][1]; }
    }
    hide Repeats;
    assert HasDuplicate(Obj([], members)) == (Repeats(Names(members)) || MembersHaveDuplicate(members));
  }

  lemma TwoMembersPrint(gap: Text, first: Text, one: Text, second: Text, two: Text)
    ensures var later := Member(gap, second, gap, gap, Scalar(two), gap, NoMembers);
            [0x7B] + Written(gap, first, one) + [0x2C] + Written(gap, second, two) + [0x7D] ==
            [] + Print(Obj([], Member(gap, first, gap, gap, Scalar(one), gap, later))) + []
  {
    var later := Member(gap, second, gap, gap, Scalar(two), gap, NoMembers);
    var members := Member(gap, first, gap, gap, Scalar(one), gap, later);
    assert PrintMembers(later) == Written(gap, second, two) + [0x7D];
    assert PrintMembers(members) == Written(gap, first, one) + ([0x2C] + PrintMembers(later));
    assert Print(Obj([], members)) == [0x7B] + [] + PrintMembers(members);
    hide Written, Print, PrintMembers;
  }

  /** Two values of an array are both looked into. */
  lemma TwoItemsScan(gap: Text, v: Value, w: Value)
    requires Spaces(gap) && WellFormed(v) && WellFormed(w)
    ensures Scan([0x5B] + gap + Print(v) + gap + [0x2C] + gap + Print(w) + gap + [0x5D]) <==>
            RepeatsName(v) || RepeatsName(w)
  {
    DuplicatesAreRepeatedNames(v);
    DuplicatesAreRepeatedNames(w);
    assert Blank(gap) && WellFormedItems(NoItems);
    hide Scan, RepeatsName, Decode, Blank;
    var later := Item(gap, w, gap, NoItems);
    assert WellFormedItems(later);
    var items := Item(gap, v, gap, later);
    assert ItemsHaveDuplicate(later) == HasDuplicate(w);
    TwoItemsPrint(gap, v, w);
    ScanIsExact([], Arr([], items), []);
  }

  lemma TwoItemsPrint(gap: Text, v: Value, w: Value)
    ensures [0x5B] + gap + Print(v) + gap + [0x2C] + gap + Print(w) + gap + [0x5D] ==
            [] + Print(Arr([], Item(gap, v, gap, Item(gap, w, gap, NoItems)))) + []
  {
    var later := Item(gap, w, gap, NoItems);
    var items := Item(gap, v, gap, later);
    var p, q := Print(v), Print(w);
    assert Print(Arr([], items)) == [0x5B] + [] + PrintItems(items);
    assert PrintItems(items) == gap + p + gap + ([0x2C] + PrintItems(later));
    assert PrintItems(later) == gap + q + gap + [0x5D];
    hide Print, PrintItems;
    var tail := gap + q + gap + [0x5D];
    assert [0x5B] + gap + p + gap + [0x2C] + gap + q + gap + [0x5D] == [0x5B] + gap + p + gap + [0x2C] + tail;
  }

  // ----- The scanner that advances one shared index ----------------------------------------------------

  datatype Verdict = Clean | Found | Thrown

  class Scanner {
    const source: Text
    var index: nat

    constructor (source: Text)
      ensures this.source == source && index == 0
    {
      this.source, index := source, 0;
    }

    /** What a scan from here must come to. */
    ghost predicate Agrees(verdict: Verdict, outcome: Outcome)
      reads this
    {
      match outcome
      case Duplicate => verdict.Found?
      case Bad => verdict.Thrown?
      case At(end) => verdict.Clean? && index == end
    }

    method Whitespace()
      requires index <= |source|
      modifies this
      ensures index == Skip(source, old(index))
    {
      while index < |source| && Space(source[index])
        invariant index <= |source| && Skip(source, index) == Skip(source, old(index))
      {
        index := index + 1;
      }
    }

    /** parseString; None is the thrown error. */
    method Name() returns (name: Option<Text>)
      requires index <= |source|
      modifies this
      ensures match ParseString(source, old(index))
              case NoName => name.None?
              case Name(text, after) => name == Some(text) && index == after
    {
      hide Decode, CloseQuote;
      var start := index;
      if index >= |source| || source[index] != QUOTE {
        return None;
      }
      index := index + 1;
      while index < |source|
        invariant start + 1 <= index && CloseQuote(source, index) == CloseQuote(source, start + 1)
        decreases |source| - index
      {
        var unit := source[index];
        CloseQuoteStep(source, index);
        index := index + 1;
        if unit == BACKSLASH {
          index := index + 1;
        } else if unit == QUOTE {
          return Decode(source[start + 1..index - 1]);
        }
      }
      NoCloseQuote(source, index);
      name := None;
    }

    /** parseValue. */
    method Value() returns (verdict: Verdict)
      requires index <= |source|
      modifies this
      ensures Agrees(verdict, ParseValue(source, old(index)))
      decreases |source| - index, 0
    {
      hide Decode, CloseQuote;
      Whitespace();
      if index < |source| && source[index] == QUOTE {
        var name := Name();
        return if name.Some? then Clean else Thrown;
      }
      if index < |source| && source[index] == OPEN_BRACE {
        index := index + 1;
        verdict := Object();
        return;
      }
      if index < |source| && source[index] == OPEN_BRACKET {
        index := index + 1;
        verdict := Array();
        return;
      }
      ghost var start := index;
      while index < |source| && !Ends(source[index])
        invariant index <= |source| && SkipBare(source, index) == SkipBare(source, start)
      {
        index := index + 1;
      }
      verdict := Clean;
    }

    /** The rest of an array, after its bracket. */
    method Array() returns (verdict: Verdict)
      requires index <= |source|
      modifies this
      ensures Agrees(verdict, var k := Skip(source, old(index));
                              if k < |source| && source[k] == CLOSE_BRACKET then At(k + 1) else ParseItems(source, k))
      decreases |source| - index, 2
    {
      hide ParseValue, Skip;
      Whitespace();
      if index < |source| && source[index] == CLOSE_BRACKET {
        index := index + 1;
        return Clean;
      }
      ghost var outcome := ParseItems(source, index);
      while index < |source|
        invariant index <= |source| && ParseItems(source, index) == outcome && old(index) <= index
        decreases |source| - index
      {
        verdict := Value();
        if !verdict.Clean? {
          return;
        }
        Whitespace();
        if index < |source| && source[index] == CLOSE_BRACKET {
          index := index + 1;
          return Clean;
        }
        if index >= |source| || source[index] != COMMA {
          return Thrown;
        }
        index := index + 1;
      }
      verdict := Thrown;
    }

    /** The rest of an object, after its brace. */
    method Object() returns (verdict: Verdict)
      requires index <= |source|
      modifies this
      ensures Agrees(verdict, var k := Skip(source, old(index));
                              if k < |source| && source[k] == CLOSE_BRACE then At(k + 1)
                                 else ParseMembers(source, k, {}))
      decreases |source| - index, 2
    {
      hide ParseValue, Skip, ParseString;
      Whitespace();
      var keys: set<Text> := {};
      if index < |source| && source[index] == CLOSE_BRACE {
        index := index + 1;
        return Clean;
      }
      ghost var outcome := ParseMembers(source, index, keys);
      while index < |source|
        invariant index <= |source| && ParseMembers(source, index, keys) == outcome && old(index) <= index
        decreases |source| - index
      {
        Whitespace();
        var name := Name();
        if name.None? {
          return Thrown;
        }
        if name.value in keys {
          return Found;
        }
        keys := keys + {name.value};
        Whitespace();
        if index >= |source| || source[index] != COLON {
          return Thrown;
        }
        index := index + 1;
        verdict := Value();
        if !verdict.Clean? {
          return;
        }
        Whitespace();
        if index < |source| && source[index] == CLOSE_BRACE {
          index := index + 1;
          return Clean;
        }
        if index >= |source| || source[index] != COMMA {
          return Thrown;
        }
        index := index + 1;
      }
      verdict := Thrown;
    }
  }

  /** hasDuplicateJsonObjectKey: it ends on every text, and answers as Scan does. */
  method HasDuplicateJsonObjectKey(source: Text) returns (duplicate: bool)
    ensures duplicate == Scan(source)
  {
    var scanner := new Scanner(source);
    var verdict := scanner.Value();
    duplicate := verdict.Found?;
  }
}
