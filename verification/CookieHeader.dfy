/**
  The deterministic cookie selector (web/src-tauri/src/playback_auth.rs,
  cookie_header_for_names). Strings are byte strings; a char stands for one byte.
 */
module CookieHeader {
  import opened Lexicographic
  import opened Strings
  import opened Wrappers

  const MAX_ACCESS_COOKIE_VALUE_BYTES: nat := 4096
  const MAX_ACCESS_COOKIE_HEADER_BYTES: nat := 8192
  const PREFIX: string := "Cookie: "

  datatype Cookie = Cookie(name: string, value: string, path: Option<string>)

  /** What is kept for an allowed name. */
  datatype Choice = Choice(value: string, path: string)

  // ---------------------------------------------------------------------------
  // Which cookies are usable

  predicate SafeByte(c: char) {
    c == '!' || '#' <= c <= '+' || '-' <= c <= ':' || '<' <= c <= '[' || ']' <= c <= '~'
  }

  predicate IsSafeValue(value: string) {
    0 < |value| <= MAX_ACCESS_COOKIE_VALUE_BYTES && forall i :: 0 <= i < |value| ==> SafeByte(value[i])
  }

  predicate LowerHex(s: string) {
    forall i :: 0 <= i < |s| ==> '0' <= s[i] <= '9' || 'a' <= s[i] <= 'f'
  }

  predicate UrlSafe(s: string) {
    forall i :: 0 <= i < |s| ==>
      '0' <= s[i] <= '9' || 'a' <= s[i] <= 'z' || 'A' <= s[i] <= 'Z' || s[i] == '_' || s[i] == '-'
  }

  /** sess_<32 lower-case hex digits>.<43 URL-safe characters>; the id holds no dot. */
  predicate IsLegacySession(value: string) {
    |value| == 5 + 32 + 1 + 43 && value[..5] == "sess_" && LowerHex(value[5..37]) && value[37] == '.'
    && UrlSafe(value[38..])
  }

  predicate StartsWith(s: string, prefix: string) {
    |prefix| <= |s| && s[..|prefix|] == prefix
  }

  predicate PathMatches(request: string, path: string) {
    if !StartsWith(path, "/") then false
    else if request == path then true
    else if !StartsWith(request, path) then false
    else path[|path| - 1] == '/' || StartsWith(request[|path|..], "/")
  }

  predicate Usable(request: string, c: Cookie) {
    && c.path.Some?
    && IsSafeValue(c.value)
    && (c.name == "ds_session" ==> IsLegacySession(c.value))
    && PathMatches(request, c.path.value)
  }

  /** The path-match of section 5.1.4 of RFC 6265. */
  predicate RfcPathMatch(request: string, path: string) {
    || request == path
    || (path <= request && path != "" && path[|path| - 1] == '/')
    || (path <= request && |path| < |request| && request[|path|] == '/')
  }

  /** The code accepts exactly the absolute cookie paths the RFC matches. */
  lemma PathMatchesIsRfc(request: string, path: string)
    ensures PathMatches(request, path) <==> path != "" && path[0] == '/' && RfcPathMatch(request, path)
  {
    assert StartsWith(path, "/") <==> path != "" && path[0] == '/';
    if StartsWith(request, path) && |path| < |request| {
      assert StartsWith(request[|path|..], "/") <==> request[|path|] == '/';
    }
  }

  // ---------------------------------------------------------------------------
  // The order in which a cookie beats another

  /** (path, value) tuples in lexicographic order. */
  predicate PairLess(a: Choice, b: Choice) {
    Less(a.path, b.path) || (a.path == b.path && Less(a.value, b.value))
  }

  /** A longer path wins; ties go to the smaller (path, value). */
  predicate Beats(a: Choice, b: Choice) {
    |a.path| > |b.path| || (|a.path| == |b.path| && PairLess(a, b))
  }

  lemma BeatsTotal(a: Choice, b: Choice)
    ensures a == b || Beats(a, b) || Beats(b, a)
    ensures !(Beats(a, b) && Beats(b, a)) && !Beats(a, a)
  {
    LessTotal(a.path, b.path);
    LessTotal(a.value, b.value);
    LessIrreflexive(a.path);
    LessIrreflexive(a.value);
  }

  lemma BeatsTransitive(a: Choice, b: Choice, c: Choice)
    requires Beats(a, b) && Beats(b, c)
    ensures Beats(a, c)
  {
    if |a.path| == |b.path| == |c.path| {
      if Less(a.path, b.path) && Less(b.path, c.path) { LessTransitive(a.path, b.path, c.path); }
      if Less(a.value, b.value) && Less(b.value, c.value) { LessTransitive(a.value, b.value, c.value); }
    }
  }

  // ---------------------------------------------------------------------------
  // Selection

  /** position: the first index of `name`, or the length when absent. */
  function Position(names: seq<string>, name: string): (i: nat)
    ensures i <= |names|
    ensures i < |names| ==> names[i] == name
  {
    if names == [] then 0 else if names[0] == name then 0 else 1 + Position(names[1..], name)
  }

  /** Cookie `c` competes for index `j`. */
  predicate Competes(request: string, names: seq<string>, c: Cookie, j: nat) {
    j < |names| && Position(names, c.name) == j && Usable(request, c)
  }

  function ChoiceOf(c: Cookie): Choice
    requires c.path.Some?
  {
    Choice(c.value, c.path.value)
  }

  /** One cookie is offered to index `j`. */
  function Offer(request: string, names: seq<string>, c: Cookie, j: nat, held: Option<Choice>): Option<Choice> {
    if Competes(request, names, c, j) && (held.None? || Beats(ChoiceOf(c), held.value))
    then Some(ChoiceOf(c)) else held
  }

  function Selected(request: string, names: seq<string>, cookies: seq<Cookie>, j: nat): Option<Choice> {
    if cookies == [] then None
    else Offer(request, names, cookies[|cookies| - 1], j,
               Selected(request, names, cookies[..|cookies| - 1], j))
  }

  /** `choice` is the best offer of a set of cookies for index `j`. */
  ghost predicate IsBest(request: string, names: seq<string>, offered: set<Cookie>, j: nat, choice: Option<Choice>) {
    match choice
    case None => forall c :: c in offered ==> !Competes(request, names, c, j)
    case Some(best) =>
      && (exists c :: c in offered && Competes(request, names, c, j) && ChoiceOf(c) == best)
      && (forall c :: c in offered && Competes(request, names, c, j) ==>
            ChoiceOf(c) == best || Beats(best, ChoiceOf(c)))
  }

  function Offered(cookies: seq<Cookie>): set<Cookie> {
    set c | c in cookies
  }

  /** Each allowed name carries the safe, matching value with the longest path, ties as stated. */
  lemma {:induction false} SelectedIsBest(request: string, names: seq<string>, cookies: seq<Cookie>, j: nat)
    ensures IsBest(request, names, Offered(cookies), j, Selected(request, names, cookies, j))
  {
    if cookies != [] {
      var front, c := cookies[..|cookies| - 1], cookies[|cookies| - 1];
      SelectedIsBest(request, names, front, j);
      assert Offered(cookies) == Offered(front) + {c};
      var held := Selected(request, names, front, j);
      if Competes(request, names, c, j) && held.Some? {
        BeatsTotal(ChoiceOf(c), held.value);
        forall d | d in Offered(front) && Competes(request, names, d, j) && Beats(ChoiceOf(c), held.value)
          ensures Beats(ChoiceOf(c), ChoiceOf(d))
        {
          if ChoiceOf(d) != held.value { BeatsTransitive(ChoiceOf(c), held.value, ChoiceOf(d)); }
        }
      }
    }
  }

  /**
    Spelled out: no usable cookie of the name has a longer path than the one kept, and among those
    with a path as long, none has a smaller path, nor the same path and a smaller value.
   */
  lemma LongestPathWins(request: string, names: seq<string>, cookies: seq<Cookie>, c: Cookie)
    requires c in cookies && c.name in names && Usable(request, c)
    ensures var kept := Selected(request, names, cookies, Position(names, c.name));
            && kept.Some? && PathMatches(request, kept.value.path) && IsSafeValue(kept.value.value)
            && (c.name == "ds_session" ==> IsLegacySession(kept.value.value))
            && |c.path.value| <= |kept.value.path|
            && (|c.path.value| == |kept.value.path| ==> !Less(c.path.value, kept.value.path))
            && (c.path.value == kept.value.path ==> !Less(c.value, kept.value.value))
  {
    var j := Position(names, c.name);
    PositionFinds(names, c.name);
    SelectedIsBest(request, names, cookies, j);
    assert c in Offered(cookies) && Competes(request, names, c, j);
    var kept := Selected(request, names, cookies, j).value;
    BeatsTotal(kept, ChoiceOf(c));
    LessTotal(kept.path, c.path.value);
    LessTotal(kept.value, c.value);
    LessIrreflexive(kept.path);
    LessIrreflexive(kept.value);
  }

  lemma {:induction false} PositionFinds(names: seq<string>, name: string)
    ensures Position(names, name) < |names| <==> name in names
  {
    if names != [] && names[0] != name {
      PositionFinds(names[1..], name);
      assert name in names <==> name in names[1..];
    }
  }

  predicate IsSession(id: string, token: string) {
    |id| == 32 && LowerHex(id) && |token| == 43 && UrlSafe(token)
  }

  /** A session value is an id of 32 lower-case hex digits and a token of 43 URL-safe characters. */
  lemma SessionExactly(value: string)
    ensures IsLegacySession(value)
            <==> exists id, token :: IsSession(id, token) && value == "sess_" + (id + ("." + token))
  {
    if IsLegacySession(value) {
      assert IsSession(value[5..37], value[38..]) && value == "sess_" + (value[5..37] + ("." + value[38..]));
    }
    if id, token :| IsSession(id, token) && value == "sess_" + (id + ("." + token)) {
      assert value[..5] == "sess_" && value[5..37] == id && value[38..] == token;
    }
  }

  /** The bytes a cookie value may hold are the cookie-octets of section 4.1.1 of RFC 6265. */
  lemma SafeByteIsRfc(c: char)
    ensures SafeByte(c) <==> ' ' < c <= '~' && c !in ['"', ',', ';', '\\']
  {
  }

  lemma BestIsUnique(request: string, names: seq<string>, offered: set<Cookie>, j: nat,
                     a: Option<Choice>, b: Option<Choice>)
    requires IsBest(request, names, offered, j, a) && IsBest(request, names, offered, j, b)
    ensures a == b
  {
    if a.Some? && b.Some? { BeatsTotal(a.value, b.value); }
  }

  // ---------------------------------------------------------------------------
  // The header

  function Entry(name: string, value: string): string { name + "=" + value }

  /** The selected entries, joined; the first has no separator before it. */
  function Joined(names: seq<string>, selected: seq<Option<Choice>>): string
    requires |selected| == |names|
  {
    if names == [] then ""
    else
      var n := |names| - 1;
      var front := Joined(names[..n], selected[..n]);
      if selected[n].None? then front
      else front + (if front == "" then "" else "; ") + Entry(names[n], selected[n].value.value)
  }

  /** The header line for a selection: nothing if the required name is missing, or it is too long. */
  function Rendered(names: seq<string>, required: Option<string>, selected: seq<Option<Choice>>): Option<string>
    requires |selected| == |names|
  {
    var header := Joined(names, selected);
    if required.Some? && (Position(names, required.value) == |names|
                          || selected[Position(names, required.value)].None?) then None
    else if |PREFIX| + |header| > MAX_ACCESS_COOKIE_HEADER_BYTES then None
    else if header == "" then None
    else Some(header)
  }

  function Selection(request: string, names: seq<string>, cookies: seq<Cookie>): (s: seq<Option<Choice>>)
    ensures |s| == |names|
    ensures forall j :: 0 <= j < |names| ==> s[j] == Selected(request, names, cookies, j)
  {
    seq(|names|, j requires j >= 0 => Selected(request, names, cookies, j))
  }

  function HeaderFor(request: string, names: seq<string>, required: Option<string>,
                     cookies: seq<Cookie>): Option<string>
  {
    Rendered(names, required, Selection(request, names, cookies))
  }

  /** The header depends only on the set of cookies offered, not on their order or repetition. */
  lemma OrderIrrelevant(request: string, names: seq<string>, required: Option<string>, a: seq<Cookie>, b: seq<Cookie>)
    requires Offered(a) == Offered(b)
    ensures HeaderFor(request, names, required, a) == HeaderFor(request, names, required, b)
  {
    forall j | 0 <= j < |names|
      ensures Selected(request, names, a, j) == Selected(request, names, b, j)
    {
      SelectedIsBest(request, names, a, j);
      SelectedIsBest(request, names, b, j);
      BestIsUnique(request, names, Offered(a), j, Selected(request, names, a, j), Selected(request, names, b, j));
    }
    assert Selection(request, names, a) == Selection(request, names, b);
  }

  lemma {:induction false} JoinedGrows(names: seq<string>, selected: seq<Option<Choice>>, n: nat)
    requires |selected| == |names| && n <= |names|
    ensures |Joined(names[..n], selected[..n])| <= |Joined(names, selected)|
  {
    if n < |names| {
      var m := |names| - 1;
      JoinedGrows(names[..m], selected[..m], n);
      assert names[..m][..n] == names[..n] && selected[..m][..n] == selected[..n];
    } else {
      assert names[..n] == names && selected[..n] == selected;
    }
  }

  /** cookie_header_for_names, selecting into a vector and appending to the header in place. */
  method CookieHeaderForNames(request: string, names: seq<string>, required: Option<string>, cookies: seq<Cookie>)
    returns (result: Option<string>)
    ensures result == HeaderFor(request, names, required, cookies)
  {
    var selected := new Option<Choice>[|names|](_ => None);
    var k := 0;
    while k < |cookies|
      invariant 0 <= k <= |cookies|
      invariant forall j :: 0 <= j < |names| ==> selected[j] == Selected(request, names, cookies[..k], j)
    {
      assert cookies[..k + 1][..k] == cookies[..k];
      var c := cookies[k];
      var index := Position(names, c.name);
      if index < |names| && Usable(request, c) {
        var choice := ChoiceOf(c);
        if selected[index].None? || Beats(choice, selected[index].value) {
          selected[index] := Some(choice);
        }
      }
      k := k + 1;
    }
    assert cookies[..k] == cookies;
    assert selected[..] == Selection(request, names, cookies);
    result := Render(names, required, selected[..]);
  }

  method Render(names: seq<string>, required: Option<string>, selected: seq<Option<Choice>>)
    returns (result: Option<string>)
    requires |selected| == |names|
    ensures result == Rendered(names, required, selected)
  {
    if required.Some? {
      var index := Position(names, required.value);
      if index == |names| || selected[index].None? { return None; }
    }
    var header := "";
    var i := 0;
    while i < |names|
      invariant 0 <= i <= |names|
      invariant header == Joined(names[..i], selected[..i])
      invariant |PREFIX| + |header| <= MAX_ACCESS_COOKIE_HEADER_BYTES
    {
      assert names[..i + 1][..i] == names[..i] && selected[..i + 1][..i] == selected[..i];
      if selected[i].Some? {
        var value := selected[i].value.value;
        var additional := (if header != "" then 2 else 0) + |names[i]| + 1 + |value|;
        if |PREFIX| + |header| + additional > MAX_ACCESS_COOKIE_HEADER_BYTES {
          JoinedGrows(names, selected, i + 1);
          return None;
        }
        if header != "" { header := header + "; "; }
        header := header + names[i] + "=" + value;
      }
      i := i + 1;
    }
    assert names[..i] == names && selected[..i] == selected;
    result := if header != "" then Some(header) else None;
  }

  // ---------------------------------------------------------------------------
  // Reading the header back

  function ReadEntry(entry: string): (string, string) {
    var i := Find(entry, '=');
    if i < |entry| then (entry[..i], entry[i + 1..]) else (entry, "")
  }

  /** Split at "; ", then each entry at its first "=". */
  function ReadHeader(header: string): seq<(string, string)>
    decreases |header|
  {
    var i := Find(header, ';');
    if i + 2 > |header| then [ReadEntry(header)]
    else [ReadEntry(header[..i])] + ReadHeader(header[i + 2..])
  }

  /** The name-value pairs of a selection, in order. */
  function Pairs(names: seq<string>, selected: seq<Option<Choice>>): seq<(string, string)>
    requires |selected| == |names|
  {
    if names == [] then []
    else
      var n := |names| - 1;
      Pairs(names[..n], selected[..n])
      + (if selected[n].None? then [] else [(names[n], selected[n].value.value)])
  }

  /** No separator inside a name or a value. */
  predicate Separable(names: seq<string>, selected: seq<Option<Choice>>)
    requires |selected| == |names|
  {
    forall j :: 0 <= j < |names| ==>
      && Lacks(names[j], '=') && Lacks(names[j], ';')
      && (selected[j].Some? ==> Lacks(selected[j].value.value, ';'))
  }

  lemma EntryReadsBack(name: string, value: string)
    requires Lacks(name, '=')
    ensures ReadEntry(Entry(name, value)) == (name, value)
  {
    var e := Entry(name, value);
    assert forall k :: 0 <= k < |name| ==> e[k] == name[k];
    FindIn(e, '=', |name|);
    assert e[..|name|] == name && e[|name| + 1..] == value;
  }

  /** Every separator has its space. */
  predicate Terminated(header: string)
    decreases |header|
  {
    var i := Find(header, ';');
    i == |header| || (i + 2 <= |header| && header[i + 1] == ' ' && Terminated(header[i + 2..]))
  }

  lemma ReadSingle(entry: string)
    requires Lacks(entry, ';')
    ensures ReadHeader(entry) == [ReadEntry(entry)] && Terminated(entry)
  {
    FindIn(entry, ';', |entry|);
  }

  lemma ReadCons(entry: string, rest: string)
    requires Lacks(entry, ';')
    ensures ReadHeader(entry + "; " + rest) == [ReadEntry(entry)] + ReadHeader(rest)
    ensures Terminated(entry + "; " + rest) == Terminated(rest)
  {
    var all := entry + "; " + rest;
    assert forall k :: 0 <= k < |entry| ==> all[k] == entry[k];
    FindIn(all, ';', |entry|);
    assert all[..|entry|] == entry && all[|entry| + 2..] == rest;
  }

  lemma JoinAssociates(a: string, b: string, c: string)
    ensures (a + "; " + b) + "; " + c == a + "; " + (b + "; " + c)
  {
  }

  lemma FirstSeparator(header: string) returns (first: string, rest: string)
    requires Terminated(header) && Find(header, ';') < |header|
    ensures header == first + "; " + rest && Lacks(first, ';') && |rest| < |header|
  {
    var i := Find(header, ';');
    first, rest := header[..i], header[i + 2..];
    assert header[i..i + 2] == "; ";
  }

  /** Appending an entry to a header appends its reading. */
  lemma {:induction false} ReadAppend(header: string, entry: string)
    requires Lacks(entry, ';') && Terminated(header)
    ensures ReadHeader(header + "; " + entry) == ReadHeader(header) + [ReadEntry(entry)]
    ensures Terminated(header + "; " + entry)
    decreases |header|, 0
  {
    if Find(header, ';') == |header| {
      ReadSingle(header);
      ReadCons(header, entry);
      ReadSingle(entry);
    } else {
      var first, rest := FirstSeparator(header);
      ReadAppendRest(first, rest, entry);
    }
  }

  lemma {:induction false} ReadAppendRest(first: string, rest: string, entry: string)
    requires Lacks(entry, ';') && Lacks(first, ';') && Terminated(first + "; " + rest)
    ensures ReadHeader((first + "; " + rest) + "; " + entry) == ReadHeader(first + "; " + rest) + [ReadEntry(entry)]
    ensures Terminated((first + "; " + rest) + "; " + entry)
    decreases |rest|, 1
  {
    ReadCons(first, rest);
    ReadAppend(rest, entry);
    ReadCons(first, rest + "; " + entry);
    JoinAssociates(first, rest, entry);
    Associates([ReadEntry(first)], ReadHeader(rest), [ReadEntry(entry)]);
  }

  lemma {:induction false} JoinedReadsBack(names: seq<string>, selected: seq<Option<Choice>>)
    requires |selected| == |names| && Separable(names, selected)
    ensures Joined(names, selected) == "" <==> Pairs(names, selected) == []
    ensures Terminated(Joined(names, selected))
    ensures Joined(names, selected) != "" ==> ReadHeader(Joined(names, selected)) == Pairs(names, selected)
  {
    if names != [] {
      var n := |names| - 1;
      JoinedReadsBack(names[..n], selected[..n]);
      if selected[n].Some? {
        var front, entry := Joined(names[..n], selected[..n]), Entry(names[n], selected[n].value.value);
        assert Lacks(entry, ';');
        EntryReadsBack(names[n], selected[n].value.value);
        if front == "" {
          assert front + "" + entry == entry;
          ReadSingle(entry);
        } else {
          ReadAppend(front, entry);
        }
      }
    }
  }

  /**
    Whatever header comes out fits the limit with its prefix, and a reader that splits it finds
    exactly the selected value of each allowed name, in order.
   */
  lemma HeaderReadsBack(request: string, names: seq<string>, required: Option<string>, cookies: seq<Cookie>)
    requires forall j :: 0 <= j < |names| ==> Lacks(names[j], '=') && Lacks(names[j], ';')
    ensures var header := HeaderFor(request, names, required, cookies);
            header.Some? ==>
              && |PREFIX| + |header.value| <= MAX_ACCESS_COOKIE_HEADER_BYTES
              && ReadHeader(header.value) == Pairs(names, Selection(request, names, cookies))
  {
    var selected := Selection(request, names, cookies);
    forall j | 0 <= j < |names| && selected[j].Some?
      ensures Lacks(selected[j].value.value, ';')
    {
      SelectedIsBest(request, names, cookies, j);
      var c :| c in Offered(cookies) && Competes(request, names, c, j) && ChoiceOf(c) == selected[j].value;
      assert forall i :: 0 <= i < |c.value| ==> SafeByte(c.value[i]);
    }
    JoinedReadsBack(names, selected);
  }

  /** Some usable cookie offers the allowed name. */
  predicate Offers(request: string, names: seq<string>, cookies: seq<Cookie>, name: string) {
    name in names && exists c :: c in cookies && c.name == name && Usable(request, c)
  }

  lemma RequiredMissing(request: string, names: seq<string>, cookies: seq<Cookie>, name: string)
    ensures var j := Position(names, name);
            (j == |names| || Selected(request, names, cookies, j).None?) <==> !Offers(request, names, cookies, name)
  {
    var j := Position(names, name);
    PositionFound(names, name);
    SelectedIsBest(request, names, cookies, j);
    var selected := Selected(request, names, cookies, j);
    if j < |names| && selected.Some? {
      var c :| c in Offered(cookies) && Competes(request, names, c, j) && ChoiceOf(c) == selected.value;
      assert c in cookies && c.name == names[j];
    } else if Offers(request, names, cookies, name) {
      var c :| c in cookies && c.name == name && Usable(request, c);
      assert c in Offered(cookies) && Competes(request, names, c, j);
    }
  }

  /** Exactly when there is no header at all. */
  lemma NoHeader(request: string, names: seq<string>, required: Option<string>, cookies: seq<Cookie>)
    ensures var selected := Selection(request, names, cookies);
            HeaderFor(request, names, required, cookies).None? <==>
              || (forall j :: 0 <= j < |names| ==> selected[j].None?)
              || |PREFIX| + |Joined(names, selected)| > MAX_ACCESS_COOKIE_HEADER_BYTES
              || (required.Some? && !Offers(request, names, cookies, required.value))
  {
    JoinedEmpty(names, Selection(request, names, cookies));
    if required.Some? { RequiredMissing(request, names, cookies, required.value); }
  }

  lemma {:induction false} JoinedEmpty(names: seq<string>, selected: seq<Option<Choice>>)
    requires |selected| == |names|
    ensures Joined(names, selected) == "" <==> forall j :: 0 <= j < |names| ==> selected[j].None?
  {
    if names != [] {
      var n := |names| - 1;
      JoinedEmpty(names[..n], selected[..n]);
      assert forall j :: 0 <= j < n ==> selected[..n][j] == selected[j];
    }
  }

  lemma {:induction false} PositionFound(names: seq<string>, name: string)
    ensures Position(names, name) < |names| <==> name in names
  {
    if names != [] { PositionFound(names[1..], name); }
  }
}
