/**
  The string-aware scanner for the first balanced JSON object in a model's reply
  (Sources/DebridStreamer/Models/AIAffinityVerdict.swift, firstBalancedJSONObject).
  A char stands for one Unicode scalar.
 */
module JsonScanner {
  import opened Wrappers

  // ---------------------------------------------------------------------------
  // The scanner

  datatype Scanner = Scanner(start: nat, depth: nat, inString: bool, escaped: bool)

  const INITIAL: Scanner := Scanner(0, 0, false, false)

  /** The character ends the object. */
  predicate Closes(st: Scanner, c: char) {
    !st.inString && c == '}' && st.depth == 1
  }

  function Next(st: Scanner, c: char, pos: nat): Scanner {
    if st.inString then
      if st.escaped then st.(escaped := false)
      else if c == '\\' then st.(escaped := true)
      else if c == '"' then st.(inString := false)
      else st
    else if c == '"' then st.(inString := true)
    else if c == '{' then st.(start := if st.depth == 0 then pos else st.start, depth := st.depth + 1)
    else if c == '}' && st.depth > 0 then st.(depth := st.depth - 1)
    else st
  }

  /** Where the object found in the rest of the text, which begins at `pos`, starts and stops. */
  function Scan(rest: string, pos: nat, st: Scanner): Option<(nat, nat)> {
    if rest == "" then None
    else if Closes(st, rest[0]) then Some((st.start, pos + 1))
    else Scan(rest[1..], pos + 1, Next(st, rest[0], pos))
  }

  /** The scanner after a text in which no object ends. */
  function After(text: string, pos: nat, st: Scanner): Option<Scanner> {
    if text == "" then Some(st)
    else if Closes(st, text[0]) then None
    else After(text[1..], pos + 1, Next(st, text[0], pos))
  }

  function FirstObject(text: string): Option<(nat, nat)> {
    Scan(text, 0, INITIAL)
  }

  lemma {:induction false} ScanInside(rest: string, pos: nat, st: Scanner)
    requires st.start <= pos
    ensures var r := Scan(rest, pos, st);
            r.Some? ==> st.start <= r.value.0 < r.value.1 && pos < r.value.1 <= pos + |rest|
  {
    if rest != "" && !Closes(st, rest[0]) {
      ScanInside(rest[1..], pos + 1, Next(st, rest[0], pos));
    }
  }

  method FirstBalancedJSONObject(text: string) returns (found: Option<string>)
    ensures FirstObject(text).Some? ==> FirstObject(text).value.0 < FirstObject(text).value.1 <= |text|
    ensures found == match FirstObject(text)
                      case Some(span) => Some(text[span.0..span.1])
                      case None => None
  {
    ScanInside(text, 0, INITIAL);
    var startIndex, depth, inString, escaped := 0, 0, false, false;
    var index := 0;
    while index < |text|
      invariant 0 <= index <= |text| && 0 <= startIndex <= index
      invariant depth >= 0
      invariant FirstObject(text) == Scan(text[index..], index, Scanner(startIndex, depth, inString, escaped))
    {
      var character := text[index];
      assert text[index..][1..] == text[index + 1..];
      if inString {
        if escaped { escaped := false; }
        else if character == '\\' { escaped := true; }
        else if character == '"' { inString := false; }
      } else {
        if character == '"' {
          inString := true;
        } else if character == '{' {
          if depth == 0 { startIndex := index; }
          depth := depth + 1;
        } else if character == '}' {
          if depth > 0 {
            depth := depth - 1;
            if depth == 0 { return Some(text[startIndex..index + 1]); }
          }
        }
      }
      index := index + 1;
    }
    found := None;
  }

  // ---------------------------------------------------------------------------
  // Composition

  lemma {:induction false} ScanSplit(a: string, b: string, pos: nat, st: Scanner)
    ensures Scan(a + b, pos, st) == match After(a, pos, st)
                                    case Some(t) => Scan(b, pos + |a|, t)
                                    case None => Scan(a, pos, st)
  {
    if a == "" {
      assert a + b == b;
    } else {
      assert (a + b)[0] == a[0] && (a + b)[1..] == a[1..] + b;
      ScanSplit(a[1..], b, pos + 1, Next(st, a[0], pos));
    }
  }

  lemma {:induction false} AfterSplit(a: string, b: string, pos: nat, st: Scanner)
    ensures After(a + b, pos, st) == match After(a, pos, st)
                                     case Some(t) => After(b, pos + |a|, t)
                                     case None => None
  {
    if a == "" {
      assert a + b == b;
    } else {
      assert (a + b)[0] == a[0] && (a + b)[1..] == a[1..] + b;
      AfterSplit(a[1..], b, pos + 1, Next(st, a[0], pos));
    }
  }

  lemma {:induction false} AfterOrFound(text: string, pos: nat, st: Scanner)
    ensures After(text, pos, st).Some? <==> Scan(text, pos, st).None?
  {
    if text != "" && !Closes(st, text[0]) { AfterOrFound(text[1..], pos + 1, Next(st, text[0], pos)); }
  }

  // ---------------------------------------------------------------------------
  // JSON texts

  /** One printed character of a string (section 7 of RFC 8259). */
  datatype Piece = Plain(c: char) | Escape(c: char) | Unicode(digits: string)

  datatype Json =
    | Null | True | False
    | Number(lexeme: string)
    | Text(pieces: seq<Piece>)
    | Array(pad: string, items: seq<Item>)
    | Object(pad: string, members: seq<Member>)

  /** A value and the white space around it. */
  datatype Item = Item(before: string, value: Json, after: string)
  datatype Member = Member(before: string, name: seq<Piece>, beforeColon: string, item: Item)

  predicate IsSpace(s: string) {
    forall i :: 0 <= i < |s| ==> s[i] == ' ' || s[i] == '\t' || s[i] == '\n' || s[i] == '\r'
  }

  predicate IsHex(c: char) { '0' <= c <= '9' || 'a' <= c <= 'f' || 'A' <= c <= 'F' }

  predicate IsNumberText(s: string) {
    s != "" && forall i :: 0 <= i < |s| ==> '0' <= s[i] <= '9' || s[i] in "+-.eE"
  }

  predicate GoodPiece(p: Piece) {
    match p
    case Plain(c) => c != '"' && c != '\\' && ' ' <= c
    case Escape(c) => c in "\"\\/bfnrt"
    case Unicode(digits) => |digits| == 4 && forall i :: 0 <= i < 4 ==> IsHex(digits[i])
  }

  predicate GoodPieces(ps: seq<Piece>) {
    forall i :: 0 <= i < |ps| ==> GoodPiece(ps[i])
  }

  predicate Good(v: Json) {
    match v
    case Number(lexeme) => IsNumberText(lexeme)
    case Text(pieces) => GoodPieces(pieces)
    case Array(pad, items) => IsSpace(pad) && forall i :: 0 <= i < |items| ==> GoodItem(items[i])
    case Object(pad, members) => IsSpace(pad) && forall i :: 0 <= i < |members| ==> GoodMember(members[i])
    case _ => true
  }

  predicate GoodItem(i: Item) {
    IsSpace(i.before) && Good(i.value) && IsSpace(i.after)
  }

  predicate GoodMember(m: Member) {
    IsSpace(m.before) && GoodPieces(m.name) && IsSpace(m.beforeColon) && GoodItem(m.item)
  }

  function PrintPiece(p: Piece): string {
    match p
    case Plain(c) => [c]
    case Escape(c) => ['\\', c]
    case Unicode(digits) => "\\u" + digits
  }

  function PrintPieces(ps: seq<Piece>): string {
    if ps == [] then "" else PrintPiece(ps[0]) + PrintPieces(ps[1..])
  }

  function PrintText(ps: seq<Piece>): string { "\"" + (PrintPieces(ps) + "\"") }

  function Print(v: Json): string {
    match v
    case Null => "null"
    case True => "true"
    case False => "false"
    case Number(lexeme) => lexeme
    case Text(pieces) => PrintText(pieces)
    case Array(pad, items) => "[" + (pad + (PrintItems(items) + "]"))
    case Object(pad, members) => "{" + (pad + (PrintMembers(members) + "}"))
  }

  function PrintItem(i: Item): string { i.before + (Print(i.value) + i.after) }

  function PrintItems(items: seq<Item>): string {
    if items == [] then ""
    else PrintItem(items[0]) + ((if |items| == 1 then "" else ",") + PrintItems(items[1..]))
  }

  function PrintMember(m: Member): string {
    m.before + (PrintText(m.name) + (m.beforeColon + (":" + PrintItem(m.item))))
  }

  function PrintMembers(members: seq<Member>): string {
    if members == [] then ""
    else PrintMember(members[0]) + ((if |members| == 1 then "" else ",") + PrintMembers(members[1..]))
  }

  // ---------------------------------------------------------------------------
  // Scanning printed values

  predicate Quiet(c: char) { c != '"' && c != '{' && c != '}' }

  /** Outside a string, text without quotes or braces changes nothing. */
  lemma {:induction false} AfterQuiet(s: string, pos: nat, st: Scanner)
    requires !st.inString && forall i :: 0 <= i < |s| ==> Quiet(s[i])
    ensures After(s, pos, st) == Some(st)
  {
    if s != "" { AfterQuiet(s[1..], pos + 1, st); }
  }

  lemma AfterPiece(p: Piece, pos: nat, st: Scanner)
    requires GoodPiece(p) && st.inString && !st.escaped
    ensures After(PrintPiece(p), pos, st) == Some(st)
  {
    if p.Unicode? {
      var d := p.digits;
      var t := PrintPiece(p);
      assert t[1..] == ['u'] + d && t[1..][1..] == d;
      assert After(d, pos + 2, st) == Some(st) by { AfterDigits(d, pos + 2, st); }
    } else if p.Escape? {
      AfterOne('\\', [p.c], pos, st);
      AfterOne(p.c, "", pos + 1, st.(escaped := true));
      assert PrintPiece(p) == ['\\'] + [p.c] && [p.c] + "" == [p.c];
    } else {
      assert PrintPiece(p)[1..] == "";
    }
  }

  lemma {:induction false} AfterDigits(s: string, pos: nat, st: Scanner)
    requires st.inString && !st.escaped && forall i :: 0 <= i < |s| ==> IsHex(s[i])
    ensures After(s, pos, st) == Some(st)
  {
    if s != "" { AfterDigits(s[1..], pos + 1, st); }
  }

  lemma {:induction false} AfterPieces(ps: seq<Piece>, pos: nat, st: Scanner)
    requires GoodPieces(ps) && st.inString && !st.escaped
    ensures After(PrintPieces(ps), pos, st) == Some(st)
  {
    if ps != [] {
      AfterPiece(ps[0], pos, st);
      AfterPieces(ps[1..], pos + |PrintPiece(ps[0])|, st);
      AfterSplit(PrintPiece(ps[0]), PrintPieces(ps[1..]), pos, st);
    }
  }

  lemma AfterOne(c: char, s: string, pos: nat, st: Scanner)
    requires !Closes(st, c)
    ensures After([c] + s, pos, st) == After(s, pos + 1, Next(st, c, pos))
  {
    assert ([c] + s)[1..] == s;
  }

  lemma AfterText(ps: seq<Piece>, pos: nat, st: Scanner)
    requires GoodPieces(ps) && !st.inString && !st.escaped
    ensures After(PrintText(ps), pos, st) == Some(st)
  {
    var inside := st.(inString := true);
    AfterOne('"', PrintPieces(ps) + "\"", pos, st);
    AfterPieces(ps, pos + 1, inside);
    AfterSplit(PrintPieces(ps), "\"", pos + 1, inside);
    AfterOne('"', "", pos + 1 + |PrintPieces(ps)|, inside);
  }

  lemma AfterBrackets(pad: string, items: string, pos: nat, st: Scanner)
    requires st.depth > 0 && !st.inString && !st.escaped && forall i :: 0 <= i < |pad| ==> Quiet(pad[i])
    requires After(items, pos + 1 + |pad|, st) == Some(st)
    ensures After("[" + (pad + (items + "]")), pos, st) == Some(st)
  {
    AfterOne('[', pad + (items + "]"), pos, st);
    AfterQuiet(pad, pos + 1, st);
    AfterSplit(pad, items + "]", pos + 1, st);
    AfterSplit(items, "]", pos + 1 + |pad|, st);
    AfterQuiet("]", pos + 1 + |pad| + |items|, st);
  }

  lemma AfterBraces(pad: string, members: string, pos: nat, st: Scanner)
    requires st.depth > 0 && !st.inString && !st.escaped
    requires var inner := st.(depth := st.depth + 1);
             After(pad + members, pos + 1, inner) == Some(inner)
    ensures After("{" + (pad + (members + "}")), pos, st) == Some(st)
  {
    var inner := st.(depth := st.depth + 1);
    AfterOne('{', pad + (members + "}"), pos, st);
    AfterSplit(pad + members, "}", pos + 1, inner);
    AfterOne('}', "", pos + 1 + |pad + members|, inner);
    assert pad + (members + "}") == (pad + members) + "}";
  }

  /** A printed value inside an object leaves the scanner as it was. */
  lemma {:induction false} AfterValue(v: Json, pos: nat, st: Scanner)
    requires Good(v) && st.depth > 0 && !st.inString && !st.escaped
    ensures After(Print(v), pos, st) == Some(st)
    decreases v, 2
  {
    if v.Text? {
      AfterText(v.pieces, pos, st);
    } else if v.Array? {
      AfterItems(v, v.items, pos + 1 + |v.pad|, st);
      AfterBrackets(v.pad, PrintItems(v.items), pos, st);
    } else if v.Object? {
      AfterBody(v, pos + 1, st.(depth := st.depth + 1));
      AfterBraces(v.pad, PrintMembers(v.members), pos, st);
    } else {
      AfterQuiet(Print(v), pos, st);
    }
  }

  lemma {:induction false} AfterBody(v: Json, pos: nat, st: Scanner)
    requires v.Object? && Good(v) && st.depth > 0 && !st.inString && !st.escaped
    ensures After(v.pad + PrintMembers(v.members), pos, st) == Some(st)
    decreases v, 1
  {
    AfterQuiet(v.pad, pos, st);
    AfterMembers(v, v.members, pos + |v.pad|, st);
    AfterSplit(v.pad, PrintMembers(v.members), pos, st);
  }

  lemma {:induction false} AfterItem(i: Item, pos: nat, st: Scanner)
    requires GoodItem(i) && st.depth > 0 && !st.inString && !st.escaped
    ensures After(PrintItem(i), pos, st) == Some(st)
    decreases i, 0
  {
    AfterQuiet(i.before, pos, st);
    AfterValue(i.value, pos + |i.before|, st);
    AfterQuiet(i.after, pos + |i.before| + |Print(i.value)|, st);
    AfterSplit(Print(i.value), i.after, pos + |i.before|, st);
    AfterSplit(i.before, Print(i.value) + i.after, pos, st);
  }

  lemma {:induction false} AfterItems(v: Json, items: seq<Item>, pos: nat, st: Scanner)
    requires forall i :: 0 <= i < |items| ==> GoodItem(items[i]) && items[i] < v
    requires st.depth > 0 && !st.inString && !st.escaped
    ensures After(PrintItems(items), pos, st) == Some(st)
    decreases v, 0, |items|
  {
    if items != [] {
      var comma := if |items| == 1 then "" else ",";
      AfterItem(items[0], pos, st);
      AfterQuiet(comma, pos + |PrintItem(items[0])|, st);
      AfterItems(v, items[1..], pos + |PrintItem(items[0])| + |comma|, st);
      AfterSplit(comma, PrintItems(items[1..]), pos + |PrintItem(items[0])|, st);
      AfterSplit(PrintItem(items[0]), comma + PrintItems(items[1..]), pos, st);
    }
  }

  lemma {:induction false} AfterMember(m: Member, pos: nat, st: Scanner)
    requires GoodMember(m) && st.depth > 0 && !st.inString && !st.escaped
    ensures After(PrintMember(m), pos, st) == Some(st)
    decreases m, 0
  {
    var p := pos + |m.before|;
    var q := p + |PrintText(m.name)|;
    AfterQuiet(m.before, pos, st);
    AfterText(m.name, p, st);
    AfterQuiet(m.beforeColon, q, st);
    AfterQuiet(":", q + |m.beforeColon|, st);
    AfterItem(m.item, q + |m.beforeColon| + 1, st);
    AfterSplit(":", PrintItem(m.item), q + |m.beforeColon|, st);
    AfterSplit(m.beforeColon, ":" + PrintItem(m.item), q, st);
    AfterSplit(PrintText(m.name), m.beforeColon + (":" + PrintItem(m.item)), p, st);
    AfterSplit(m.before, PrintText(m.name) + (m.beforeColon + (":" + PrintItem(m.item))), pos, st);
  }

  lemma AfterThree(a: string, b: string, c: string, pos: nat, st: Scanner)
    requires After(a, pos, st) == Some(st) && After(b, pos + |a|, st) == Some(st)
    requires After(c, pos + |a| + |b|, st) == Some(st)
    ensures After(a + (b + c), pos, st) == Some(st)
  {
    AfterSplit(b, c, pos + |a|, st);
    AfterSplit(a, b + c, pos, st);
  }

  lemma {:induction false} AfterMembers(v: Json, members: seq<Member>, pos: nat, st: Scanner)
    requires forall i :: 0 <= i < |members| ==> GoodMember(members[i]) && members[i] < v
    requires st.depth > 0 && !st.inString && !st.escaped
    ensures After(PrintMembers(members), pos, st) == Some(st)
    decreases v, 0, |members|
  {
    if members != [] {
      var comma := if |members| == 1 then "" else ",";
      AfterMember(members[0], pos, st);
      AfterQuiet(comma, pos + |PrintMember(members[0])|, st);
      AfterMembers(v, members[1..], pos + |PrintMember(members[0])| + |comma|, st);
      AfterThree(PrintMember(members[0]), comma, PrintMembers(members[1..]), pos, st);
    }
  }

  // ---------------------------------------------------------------------------
  // Main results

  lemma ScanOne(c: char, s: string, pos: nat, st: Scanner)
    ensures Scan([c] + s, pos, st) == if Closes(st, c) then Some((st.start, pos + 1))
                                      else Scan(s, pos + 1, Next(st, c, pos))
  {
    assert ([c] + s)[1..] == s;
  }

  lemma ObjectText(v: Json, suffix: string)
    requires v.Object?
    ensures Print(v) + suffix == ['{'] + (v.pad + PrintMembers(v.members) + (['}'] + suffix))
    ensures |Print(v)| == |v.pad + PrintMembers(v.members)| + 2
  {
  }

  /** An idle scanner finds the object it stands before. */
  lemma FindsObject(v: Json, suffix: string, pos: nat, st: Scanner)
    requires v.Object? && Good(v) && st.depth == 0 && !st.inString && !st.escaped
    ensures Scan(Print(v) + suffix, pos, st) == Some((pos, pos + |Print(v)|))
  {
    var body, inner := v.pad + PrintMembers(v.members), Scanner(pos, 1, false, false);
    ObjectText(v, suffix);
    ScanOne('{', body + (['}'] + suffix), pos, st);
    AfterBody(v, pos + 1, inner);
    ScanSplit(body, ['}'] + suffix, pos + 1, inner);
    ScanOne('}', suffix, pos + 1 + |body|, inner);
  }

  /** Nothing has been found in the text, and the scanner is outside every object and string. */
  predicate IdleAfter(prefix: string) {
    var st := After(prefix, 0, INITIAL);
    st.Some? && st.value.depth == 0 && !st.value.inString
  }

  /** Once inside a string or an object, or past the position, no later object starts there. */
  lemma {:induction false} StartsElsewhere(rest: string, pos: nat, st: Scanner, at: nat)
    requires if st.depth > 0 then st.start != at else at < pos || (at == pos && st.inString)
    requires at <= pos
    ensures var r := Scan(rest, pos, st); r.Some? ==> r.value.0 != at
  {
    if rest != "" && !Closes(st, rest[0]) {
      StartsElsewhere(rest[1..], pos + 1, Next(st, rest[0], pos), at);
    }
  }

  lemma {:induction false} AfterState(text: string, pos: nat, st: Scanner)
    requires (st.escaped ==> st.inString) && (st.depth > 0 ==> st.start < pos)
    ensures var t := After(text, pos, st);
            t.Some? ==> (t.value.escaped ==> t.value.inString) && (t.value.depth > 0 ==> t.value.start < pos + |text|)
  {
    if text != "" && !Closes(st, text[0]) { AfterState(text[1..], pos + 1, Next(st, text[0], pos)); }
  }

  /** The printed object is what the scanner finds exactly when the text before it leaves it idle. */
  lemma FoundExactly(prefix: string, v: Json, suffix: string)
    requires v.Object? && Good(v)
    ensures FirstObject(prefix + Print(v) + suffix) == Some((|prefix|, |prefix| + |Print(v)|)) <==> IdleAfter(prefix)
  {
    var rest := Print(v) + suffix;
    assert prefix + Print(v) + suffix == prefix + rest;
    ScanSplit(prefix, rest, 0, INITIAL);
    AfterState(prefix, 0, INITIAL);
    var st := After(prefix, 0, INITIAL);
    if st.None? {
      AfterOrFound(prefix, 0, INITIAL);
      ScanInside(prefix, 0, INITIAL);
    } else if IdleAfter(prefix) {
      FindsObject(v, suffix, |prefix|, st.value);
    } else {
      StartsElsewhere(rest, |prefix|, st.value, |prefix|);
    }
  }

  /** After any text without quotes or opening braces, and before any text at all. */
  lemma PrintedObjectIsFound(prefix: string, v: Json, suffix: string)
    requires v.Object? && Good(v)
    requires forall i :: 0 <= i < |prefix| ==> prefix[i] != '"' && prefix[i] != '{'
    ensures FirstObject(prefix + Print(v) + suffix) == Some((|prefix|, |prefix| + |Print(v)|))
    ensures (prefix + Print(v) + suffix)[|prefix|..|prefix| + |Print(v)|] == Print(v)
  {
    AfterPlainPrefix(prefix, 0, INITIAL);
    FoundExactly(prefix, v, suffix);
  }

  lemma {:induction false} AfterPlainPrefix(s: string, pos: nat, st: Scanner)
    requires st.depth == 0 && !st.inString && forall i :: 0 <= i < |s| ==> s[i] != '"' && s[i] != '{'
    ensures After(s, pos, st) == Some(st)
  {
    if s != "" { AfterPlainPrefix(s[1..], pos + 1, st); }
  }

  /** A lone quote before the object loses it. */
  lemma LoneQuoteLoses(v: Json, suffix: string)
    requires v.Object? && Good(v)
    ensures FirstObject("\"" + Print(v) + suffix) != Some((1, 1 + |Print(v)|))
  {
    AfterOne('"', "", 0, INITIAL);
    FoundExactly("\"", v, suffix);
  }

  /** What is found in any text is found again, whole, when it is scanned by itself. */
  lemma FoundIsStable(text: string)
    requires FirstObject(text).Some?
    ensures var span := FirstObject(text).value;
            && span.0 < span.1 <= |text| && text[span.0] == '{' && text[span.1 - 1] == '}'
            && FirstObject(text[span.0..span.1]) == Some((0, span.1 - span.0))
  {
    ScanInside(text, 0, INITIAL);
    FoundFromIdle(text, 0, INITIAL);
  }

  /** The span runs from brace to brace, and what it covers is found whole by itself. */
  predicate FoundWhole(rest: string, pos: nat, span: (nat, nat)) {
    && pos <= span.0 < span.1 <= pos + |rest|
    && rest[span.0 - pos] == '{' && rest[span.1 - 1 - pos] == '}'
    && FirstObject(rest[span.0 - pos..span.1 - pos]) == Some((0, span.1 - span.0))
  }

  lemma FoundLater(rest: string, pos: nat, span: (nat, nat))
    requires rest != "" && FoundWhole(rest[1..], pos + 1, span)
    ensures FoundWhole(rest, pos, span)
  {
    hide FirstObject;
    assert rest[1..][span.0 - (pos + 1)..span.1 - (pos + 1)] == rest[span.0 - pos..span.1 - pos];
  }

  lemma ScanFirst(s: string, pos: nat, st: Scanner)
    requires s != "" && !Closes(st, s[0])
    ensures Scan(s, pos, st) == Scan(s[1..], pos + 1, Next(st, s[0], pos))
  {
  }

  lemma FoundHere(rest: string, pos: nat, st: Scanner)
    requires rest != "" && st.depth == 0 && (st.escaped ==> st.inString) && Next(st, rest[0], pos).depth != 0
    requires Scan(rest, pos, st).Some?
    ensures FoundWhole(rest, pos, Scan(rest, pos, st).value)
  {
    hide Scan;
    ScanFirst(rest, pos, st);
    FoundFromOpen(rest[1..], pos + 1, Next(st, rest[0], pos), pos);
    var whole := rest[..Scan(rest, pos, st).value.1 - pos];
    assert whole[1..] == rest[1..][..Scan(rest, pos, st).value.1 - (pos + 1)];
    ScanFirst(whole, 0, INITIAL);
  }

  lemma {:induction false} FoundFromIdle(rest: string, pos: nat, st: Scanner)
    requires st.depth == 0 && (st.escaped ==> st.inString) && Scan(rest, pos, st).Some?
    ensures FoundWhole(rest, pos, Scan(rest, pos, st).value)
  {
    hide FoundWhole;
    if Next(st, rest[0], pos).depth == 0 {
      ScanFirst(rest, pos, st);
      FoundFromIdle(rest[1..], pos + 1, Next(st, rest[0], pos));
      FoundLater(rest, pos, Scan(rest, pos, st).value);
    } else {
      FoundHere(rest, pos, st);
    }
  }

  /** Inside an object, only its distance from the start matters, and nothing after its end. */
  lemma {:induction false} FoundFromOpen(rest: string, pos: nat, st: Scanner, start: nat)
    requires st.depth > 0 && st.start == start < pos && Scan(rest, pos, st).Some?
    ensures var span := Scan(rest, pos, st).value;
            && span.0 == start && pos < span.1 <= pos + |rest| && rest[span.1 - 1 - pos] == '}'
            && Scan(rest[..span.1 - pos], pos - start, st.(start := 0)) == Some((0, span.1 - start))
  {
    if !Closes(st, rest[0]) {
      var next := Next(st, rest[0], pos);
      FoundFromOpen(rest[1..], pos + 1, next, start);
      var span := Scan(rest, pos, st).value;
      assert rest[..span.1 - pos][1..] == rest[1..][..span.1 - (pos + 1)];
    }
  }
}
