// What a host list expands to, as laws about the text: a literal, a range of
// numbers, a comma inside a bracket, a comma outside, and two texts side by side.
// Together they say of every well-formed list which names it expands to, and in
// which order.
module Notation {
  import opened Wrappers
  import opened Hostlist
  import opened Grammar
  import opened Expansion
  import Text

  // ---- A well-formed text expands to what it denotes ----

  predicate NotationChar(c: char) {
    LiteralChar(c) || c == '[' || c == ']' || c == ',' || c == '+'
  }

  lemma {:induction false} GroupsChars(groups: seq<Group>)
    requires GroupsFormed(groups)
    ensures (forall g :: g in groups ==> g.spans != []) && AllOf(RenderGroups(groups), NotationChar)
  {
    if groups != [] {
      var g := groups[0];
      assert GroupFormed(g);
      GroupChars(g);
      GroupsChars(groups[1..]);
      assert AllOf(RenderGroup(g), NotationChar) by {
        assert AllOf(Join(RenderSpans(g.spans)), NotationChar);
        assert AllOf(g.literal, NotationChar);
      }
    }
  }

  lemma HostChars(h: Host)
    requires HostFormed(h)
    ensures Filled(h) && AllOf(RenderHost(h), NotationChar)
  {
    GroupsChars(h.groups);
  }

  lemma {:induction false} HostsChars(hosts: seq<Host>)
    requires forall h :: h in hosts ==> HostFormed(h)
    ensures (forall h :: h in hosts ==> Filled(h)) && forall i :: 0 <= i < |hosts| ==> AllOf(RenderHosts(hosts)[i], NotationChar)
  {
    if hosts != [] {
      LastApart(hosts);
      HostsChars(hosts[..|hosts| - 1]);
      HostChars(hosts[|hosts| - 1]);
    }
  }

  lemma PlainText(text: string)
    requires text != "" && AllOf(text, NotationChar)
    ensures Text.Trim(text) == text && !NoHosts(text)
  {
    assert text[0] in text && text[|text| - 1] in text;
    Text.TrimIsTrimmed(text);
    assert "(null)"[0] in "(null)" && "None assigned"[4] in "None assigned";
  }

  lemma EmptyIsNoList()
    ensures Parse("") == None
  {
    assert ScanAll(START, "") == Some(START);
    assert [] + [""] == [""];
    assert SplitTopLevel("") == Some([""]);
    assert [""][..0] == [] && ParseHosts([""]) == None;
  }

  lemma RenderedIsPlain(hosts: seq<Host>)
    requires Formed(hosts)
    ensures (forall h :: h in hosts ==> Filled(h)) && Text.Trim(Render(hosts)) == Render(hosts) && !NoHosts(Render(hosts))
  {
    HostsChars(hosts);
    JoinChars(RenderHosts(hosts), NotationChar);
    ParseIsExact(Render(hosts), hosts);
    EmptyIsNoList();
    PlainText(Render(hosts));
  }

  lemma ListExpands(hosts: seq<Host>)
    requires Formed(hosts)
    ensures (forall h :: h in hosts ==> Filled(h)) && NodeList(Render(hosts)) == Fitting(Names(hosts))
  {
    RenderedIsPlain(hosts);
    ParseIsExact(Render(hosts), hosts);
  }

  lemma HostExpands(h: Host)
    requires HostFormed(h)
    ensures Filled(h) && NodeList(RenderHost(h)) == Fitting(HostNames(h))
  {
    assert [h][..0] == [];
    assert RenderHosts([]) == [] && RenderHosts([h]) == [RenderHost(h)];
    ListExpands([h]);
    assert Names([]) == [] && Names([h]) == [] + HostNames(h) == HostNames(h);
  }

  // ---- No hosts ----

  // These three texts, with any space around them, stand for no hosts.
  lemma NoHostsAtAll(list: string)
    requires Text.Trim(list) in ["", "(null)", "None assigned"]
    ensures NodeList(list) == Some([])
  {
  }

  // ---- A literal ----

  // Letters, digits, dots, underscores and dashes stand for themselves.
  lemma LiteralIsItself(text: string)
    requires text != "" && IsLiteral(text)
    ensures NodeList(text) == Some([text])
  {
    var h := Host([], text);
    HostExpands(h);
    assert RenderHost(h) == text;
    assert HostNames(h) == [text];
  }

  // Outside brackets nothing else is let through.
  lemma LiteralExactly(text: string)
    requires Text.Trim(text) == text && text !in ["", "(null)", "None assigned"]
    requires forall c :: c in text ==> c != '[' && c != ']' && c != ','
    ensures NodeList(text) ==
      if forall c :: c in text ==> 'A' <= c <= 'Z' || 'a' <= c <= 'z' || '0' <= c <= '9' || c == '.' || c == '_' || c == '-'
      then Some([text]) else None
  {
    if IsLiteral(text) {
      LiteralIsItself(text);
    } else {
      assert ["", "(null)", "None assigned"][1] == "(null)" && ["", "(null)", "None assigned"][2] == "None assigned";
      PlainParses(text);
      UnparsedIsRefused(text);
    }
  }

  lemma PlainParses(text: string)
    requires text != "" && forall c :: c in text ==> c != '[' && c != ']' && c != ','
    ensures Parse(text) == if IsLiteral(text) then Some([Host([], text)]) else None
  {
    assert forall i :: 0 <= i < |text| ==> text[i] in text;
    ScanPlain(START, text);
    assert "" + text == text;
    RestPlain(text);
    OneHostParses(text);
  }

  lemma OneHostParses(text: string)
    requires text != "" && SplitTopLevel(text) == Some([] + [text])
    ensures Parse(text) == if ParseRest(text).Some? then Some([ParseRest(text).value]) else None
  {
    var parts := [text];
    assert [] + [text] == parts && parts[..|parts| - 1] == [] && ParseHosts([]) == Some([]);
    if ParseRest(text).Some? {
      assert [] + [ParseRest(text).value] == [ParseRest(text).value];
    }
  }

  lemma UnparsedIsRefused(text: string)
    requires Text.Trim(text) == text && !NoHosts(text) && Parse(text) == None
    ensures NodeList(text) == None
  {
    forall hosts ensures !IsListing(text, hosts) {
      ParseIsExact(text, hosts);
    }
    if NodeList(text).Some? {
      NodeListIsExact(text, NodeList(text).value);
    }
  }

  // ---- One bracket ----

  function Bracket(literal: string, spans: seq<Span>, tail: string): string
    requires spans != []
  {
    literal + "[" + Join(RenderSpans(spans)) + "]" + tail
  }

  predicate SpansFormed(spans: seq<Span>) {
    spans != [] && forall s :: s in spans ==> SpanFormed(s)
  }

  // Each number between the literal and the tail.
  function Spelled(literal: string, numbers: seq<string>, tail: string): seq<string> {
    seq(|numbers|, k requires 0 <= k < |numbers| => literal + numbers[k] + tail)
  }

  lemma SpelledAppend(literal: string, a: seq<string>, b: seq<string>, tail: string)
    ensures Spelled(literal, a + b, tail) == Spelled(literal, a, tail) + Spelled(literal, b, tail)
  {
  }

  lemma BracketExpands(literal: string, spans: seq<Span>, tail: string)
    requires IsLiteral(literal) && IsLiteral(tail) && SpansFormed(spans)
    ensures NodeList(Bracket(literal, spans, tail)) == Fitting(Spelled(literal, SpansNames(spans), tail))
  {
    var g := Group(literal, spans);
    var h := Host([g], tail);
    assert GroupFormed(g) && HostFormed(h);
    HostExpands(h);
    BracketText(literal, spans, tail);
    var numbers := SpansNames(spans);
    assert [g][..0] == [] && GroupsNames([]) == [""] && GroupsNames([g]) == Cross([""], literal, numbers);
    OneLeft(literal, numbers);
    assert HostNames(h) == Spelled(literal, numbers, tail);
  }

  lemma BracketText(literal: string, spans: seq<Span>, tail: string)
    requires spans != []
    ensures Filled(Host([Group(literal, spans)], tail))
    ensures RenderHost(Host([Group(literal, spans)], tail)) == Bracket(literal, spans, tail)
  {
    var g := Group(literal, spans);
    assert [g][1..] == [] && RenderGroups([g]) == RenderGroup(g) + RenderGroups([]);
  }

  lemma OneLeft(literal: string, right: seq<string>)
    ensures Cross([""], literal, right) == Prefixed(literal, right)
  {
    assert [""][..0] == [] && Cross([], literal, right) == [];
    assert "" + literal == literal;
  }

  lemma {:induction false} NumbersAppend(xs: seq<Span>, ys: seq<Span>)
    requires (forall s :: s in xs ==> SpanFormed(s)) && forall s :: s in ys ==> SpanFormed(s)
    ensures SpansNames(xs + ys) == SpansNames(xs) + SpansNames(ys)
  {
    if ys == [] {
      assert xs + ys == xs;
    } else {
      var n := |ys| - 1;
      NumbersAppend(xs, ys[..n]);
      NumbersStep(xs, ys[..n], ys[n]);
      LastApart(ys);
    }
  }

  lemma NumbersStep(xs: seq<Span>, rest: seq<Span>, last: Span)
    requires (forall s :: s in xs ==> SpanFormed(s)) && (forall s :: s in rest ==> SpanFormed(s)) && SpanFormed(last)
    requires SpansNames(xs + rest) == SpansNames(xs) + SpansNames(rest)
    ensures SpansNames(xs + (rest + [last])) == SpansNames(xs) + SpansNames(rest + [last])
  {
    Associates(xs, rest, [last]);
    NamesPush(xs + rest, last);
    NamesPush(rest, last);
    Associates(SpansNames(xs), SpansNames(rest), SpanNames(last));
  }

  lemma Associates<T>(a: seq<T>, b: seq<T>, c: seq<T>)
    ensures a + (b + c) == (a + b) + c
  {
  }

  lemma {:induction false} RenderedSpansAppend(xs: seq<Span>, ys: seq<Span>)
    ensures RenderSpans(xs + ys) == RenderSpans(xs) + RenderSpans(ys)
  {
    if ys == [] {
      assert xs + ys == xs;
    } else {
      var n := |ys| - 1;
      assert (xs + ys)[..|xs + ys| - 1] == xs + ys[..n] && (xs + ys)[|xs + ys| - 1] == ys[n];
      RenderedSpansAppend(xs, ys[..n]);
    }
  }

  lemma {:induction false} JoinAppend(xs: seq<string>, ys: seq<string>)
    requires xs != [] && ys != []
    ensures Join(xs + ys) == Join(xs) + "," + Join(ys)
  {
    assert (xs + ys)[1..] == xs[1..] + ys;
    if |xs| == 1 {
      assert xs[1..] + ys == ys;
    } else {
      JoinAppend(xs[1..], ys);
    }
  }

  // The names of the one, then the names of the other, if they are not too many.
  function Both(a: Option<seq<string>>, b: Option<seq<string>>): Option<seq<string>> {
    if a.Some? && b.Some? && |a.value| + |b.value| <= 100_000 then Some(a.value + b.value) else None
  }

  // A comma inside a bracket: first the names for what stands before it, then the
  // names for what stands behind it.
  lemma CommaInside(literal: string, xs: seq<Span>, ys: seq<Span>, tail: string)
    requires IsLiteral(literal) && IsLiteral(tail) && SpansFormed(xs) && SpansFormed(ys)
    ensures Bracket(literal, xs + ys, tail) == literal + "[" + (Join(RenderSpans(xs)) + "," + Join(RenderSpans(ys))) + "]" + tail
    ensures NodeList(Bracket(literal, xs + ys, tail)) == Both(NodeList(Bracket(literal, xs, tail)), NodeList(Bracket(literal, ys, tail)))
  {
    BodiesJoin(literal, xs, ys, tail);
    NumbersAppend(xs, ys);
    BracketExpands(literal, xs, tail);
    BracketExpands(literal, ys, tail);
    BracketExpands(literal, xs + ys, tail);
    SpelledAppend(literal, SpansNames(xs), SpansNames(ys), tail);
  }

  lemma BodiesJoin(literal: string, xs: seq<Span>, ys: seq<Span>, tail: string)
    requires xs != [] && ys != []
    ensures Bracket(literal, xs + ys, tail) == literal + "[" + (Join(RenderSpans(xs)) + "," + Join(RenderSpans(ys))) + "]" + tail
  {
    RenderedSpansAppend(xs, ys);
    JoinAppend(RenderSpans(xs), RenderSpans(ys));
  }

  // The number n in decimal, with zeros in front up to the width.
  predicate IsPadded(text: string, width: nat, n: nat) {
    && AllDigits(text) && DigitsValue(text) == n
    && width <= |text| && (width < |text| ==> text[0] != '0')
  }

  // The name is that number between the literal and the tail.
  ghost predicate Carries(name: string, literal: string, width: nat, n: nat, tail: string) {
    exists text :: IsPadded(text, width, n) && name == literal + text + tail
  }

  // Name k of a range carries its k-th number.
  ghost predicate CountsUp(names: seq<string>, literal: string, width: nat, from: nat, tail: string) {
    forall k :: 0 <= k < |names| ==> Carries(names[k], literal, width, from + k, tail)
  }

  // A range has a name for each number from its lower to its upper bound, in order,
  // as wide as the lower bound is written.
  lemma RangeCountsUp(literal: string, first: string, last: string, tail: string)
    requires IsLiteral(literal) && IsLiteral(tail) && first != "" && last != "" && AllDigits(first) && AllDigits(last)
    requires DigitsValue(first) <= DigitsValue(last) <= MAX_INT64
    ensures var names, size := NodeList(literal + "[" + (first + "-" + last) + "]" + tail), DigitsValue(last) - DigitsValue(first) + 1;
      && (names.Some? <==> size <= 100_000)
      && (names.Some? ==> |names.value| == size && CountsUp(names.value, literal, |first|, DigitsValue(first), tail))
  {
    var s := Range(first, last);
    UnsignedIsFormed(s);
    OneSpan(s);
    BracketExpands(literal, [s], tail);
    RangeIsNumbered(s);
    SpelledCountsUp(literal, |first|, DigitsValue(first), SpanNames(s), tail);
  }

  // A range that counts down, or is not in 64 bits, is refused.
  lemma RangeIsRefused(literal: string, first: string, last: string, tail: string)
    requires IsLiteral(literal) && IsLiteral(tail) && AllDigits(first) && AllDigits(last)
    requires first == "" || last == "" || DigitsValue(last) < DigitsValue(first) || 0x7fff_ffff_ffff_ffff < DigitsValue(last)
    ensures NodeList(literal + "[" + (first + "-" + last) + "]" + tail) == None
  {
    RangeDoesNotParse(first, last);
    BodyIsRefused(literal, first + "-" + last, tail);
  }

  lemma RangeDoesNotParse(first: string, last: string)
    requires AllDigits(first) && AllDigits(last)
    requires first == "" || last == "" || DigitsValue(last) < DigitsValue(first) || MAX_INT64 < DigitsValue(last)
    ensures ParseBody(first + "-" + last) == None
    ensures forall c :: c in first + "-" + last ==> IsDigit(c) || c == '-'
  {
    var text := first + "-" + last;
    assert '-' !in first && ',' !in text;
    assert text == first + ['-'] + last;
    IndexOfFirst(first, '-', last);
    assert text[..|first|] == first && text[|first| + 1..] == last;
    assert first != "" ==> first[0] in first;
    assert last != "" ==> last[0] in last;
    OneSpanBody(text);
  }

  lemma OneSpanBody(text: string)
    requires ',' !in text && ParseSpan(text) == None
    ensures ParseBody(text) == None
  {
    IndexOfFirst(text, ',', "");
    assert Split(text, ',') == [text] && ParseSpans([text]) == None;
  }

  // What does not parse between two brackets spoils the list.
  lemma BodyIsRefused(literal: string, body: string, tail: string)
    requires IsLiteral(literal) && IsLiteral(tail) && ParseBody(body) == None && forall c :: c in body ==> IsDigit(c) || c == '-'
    ensures NodeList(literal + "[" + body + "]" + tail) == None
  {
    var text := literal + "[" + body + "]" + tail;
    assert forall i :: 0 <= i < |body| ==> body[i] in body;
    ScanBracket(START, literal, body);
    ScanTail(literal + "[" + body + "]", tail);
    assert '[' !in literal && ']' !in body;
    RestStep(literal, body, tail);
    OneHostParses(text);
    BracketIsPlain(literal, body, tail);
    PlainText(text);
    UnparsedIsRefused(text);
  }

  lemma ScanTail(text: string, tail: string)
    requires IsLiteral(tail) && ScanAll(START, text) == Some(Scan([], "" + text, false))
    ensures SplitTopLevel(text + tail) == Some([] + [text + tail])
  {
    assert "" + text == text;
    LiteralIsPlain(tail);
    ScanAppend(START, text, tail);
    ScanPlain(Scan([], text, false), tail);
  }

  lemma BracketIsPlain(literal: string, body: string, tail: string)
    requires IsLiteral(literal) && IsLiteral(tail) && forall c :: c in body ==> IsDigit(c) || c == '-'
    ensures AllOf(literal + "[" + body + "]" + tail, NotationChar)
  {
  }

  lemma RangeIsNumbered(s: Span)
    requires SpanFormed(s) && 0 <= NumberValue(Low(s))
    ensures |SpanNames(s)| == NumberValue(High(s)) - NumberValue(Low(s)) + 1
    ensures forall k :: 0 <= k < |SpanNames(s)| ==> SpanNames(s)[k] == Pad(|Low(s)|, NumberValue(Low(s)) + k)
  {
    NumberedAt(|Low(s)|, NumberValue(Low(s)), NumberValue(High(s)) - NumberValue(Low(s)) + 1);
  }

  lemma NumberedAt(width: nat, from: nat, n: nat)
    ensures |Numbered(width, from, n)| == n && forall k :: 0 <= k < n ==> Numbered(width, from, n)[k] == Pad(width, from + k)
  {
  }

  lemma SpelledCountsUp(literal: string, width: nat, from: nat, numbers: seq<string>, tail: string)
    requires 1 <= width && forall k :: 0 <= k < |numbers| ==> numbers[k] == Pad(width, from + k)
    ensures CountsUp(Spelled(literal, numbers, tail), literal, width, from, tail)
  {
    var names := Spelled(literal, numbers, tail);
    forall k | 0 <= k < |names| ensures Carries(names[k], literal, width, from + k, tail) {
      PadIsPadded(width, from + k);
      assert names[k] == literal + numbers[k] + tail;
    }
  }

  lemma OneSpan(s: Span)
    requires SpanFormed(s)
    ensures Join(RenderSpans([s])) == RenderSpan(s) && SpansNames([s]) == SpanNames(s)
  {
    assert [s][..0] == [] && RenderSpans([]) == [] && RenderSpans([s]) == [RenderSpan(s)];
    assert SpansNames([]) == [] && SpansNames([s]) == [] + SpanNames(s) == SpanNames(s);
  }

  lemma UnsignedIsFormed(s: Span)
    requires Low(s) != "" && High(s) != "" && AllDigits(Low(s)) && AllDigits(High(s))
    requires DigitsValue(Low(s)) <= DigitsValue(High(s)) <= MAX_INT64
    ensures SpanFormed(s) && NumberValue(Low(s)) == DigitsValue(Low(s)) && NumberValue(High(s)) == DigitsValue(High(s))
  {
    assert Low(s)[0] in Low(s) && High(s)[0] in High(s);
  }

  lemma PadIsPadded(width: nat, n: nat)
    requires 1 <= width
    ensures IsPadded(Pad(width, n), width, n)
  {
    PadMeans(width, n);
    DigitsMean(n);
    assert |Digits(0)| == 1;
  }

  // ---- Several hosts ----

  lemma {:induction false} NamesAppend(a: seq<Host>, b: seq<Host>)
    requires forall h :: h in a || h in b ==> HostFormed(h)
    ensures Names(a + b) == Names(a) + Names(b)
  {
    if b == [] {
      assert a + b == a;
    } else {
      var n := |b| - 1;
      LastApart(b);
      assert (a + b)[..|a + b| - 1] == a + b[..n] && (a + b)[|a + b| - 1] == b[n];
      NamesAppend(a, b[..n]);
    }
  }

  lemma {:induction false} RenderedHostsAppend(a: seq<Host>, b: seq<Host>)
    requires forall h :: h in a || h in b ==> Filled(h)
    ensures RenderHosts(a + b) == RenderHosts(a) + RenderHosts(b)
  {
    if b == [] {
      assert a + b == a;
    } else {
      var n := |b| - 1;
      LastApart(b);
      assert (a + b)[..|a + b| - 1] == a + b[..n] && (a + b)[|a + b| - 1] == b[n];
      RenderedHostsAppend(a, b[..n]);
    }
  }

  // A comma between hosts: first the names of the hosts before it, then those of
  // the hosts behind it.
  lemma CommaOutside(a: seq<Host>, b: seq<Host>)
    requires Formed(a) && Formed(b)
    ensures forall h :: h in a + b ==> Filled(h)
    ensures Render(a + b) == Render(a) + "," + Render(b)
    ensures NodeList(Render(a) + "," + Render(b)) == Both(NodeList(Render(a)), NodeList(Render(b)))
  {
    assert Formed(a + b);
    ListExpands(a);
    ListExpands(b);
    ListExpands(a + b);
    RenderedHostsAppend(a, b);
    JoinAppend(RenderHosts(a), RenderHosts(b));
    NamesAppend(a, b);
  }

  // ---- Side by side ----

  lemma {:induction false} CrossAppend(a: seq<string>, b: seq<string>, literal: string, right: seq<string>)
    ensures Cross(a + b, literal, right) == Cross(a, literal, right) + Cross(b, literal, right)
  {
    if b == [] {
      assert a + b == a;
    } else {
      var n := |b| - 1;
      assert (a + b)[..|a + b| - 1] == a + b[..n] && (a + b)[|a + b| - 1] == b[n];
      CrossAppend(a, b[..n], literal, right);
    }
  }

  lemma {:induction false} CrossPrefixed(prefix: string, names: seq<string>, literal: string, right: seq<string>)
    ensures Cross(Prefixed(prefix, names), literal, right) == Prefixed(prefix, Cross(names, literal, right))
  {
    if names != [] {
      var n := |names| - 1;
      assert Prefixed(prefix, names)[..n] == Prefixed(prefix, names[..n]);
      CrossPrefixed(prefix, names[..n], literal, right);
      PrefixedTwice(prefix, names[n] + literal, right);
      assert prefix + names[n] + literal == prefix + (names[n] + literal);
      PrefixedAppend(prefix, Cross(names[..n], literal, right), Prefixed(names[n] + literal, right));
    }
  }

  lemma PrefixedTwice(a: string, b: string, names: seq<string>)
    ensures Prefixed(a, Prefixed(b, names)) == Prefixed(a + b, names)
  {
    forall k | 0 <= k < |names| ensures Prefixed(a, Prefixed(b, names))[k] == Prefixed(a + b, names)[k] {
      assert a + (b + names[k]) == (a + b) + names[k];
    }
  }

  lemma PrefixedAppend(prefix: string, a: seq<string>, b: seq<string>)
    ensures Prefixed(prefix, a + b) == Prefixed(prefix, a) + Prefixed(prefix, b)
  {
  }

  // Crossing is associative.
  lemma {:induction false} CrossCross(a: seq<string>, s: string, b: seq<string>, t: string, c: seq<string>)
    ensures Cross(Cross(a, s, b), t, c) == Cross(a, s, Cross(b, t, c))
  {
    if a != [] {
      var n := |a| - 1;
      CrossCross(a[..n], s, b, t, c);
      CrossAppend(Cross(a[..n], s, b), Prefixed(a[n] + s, b), t, c);
      CrossPrefixed(a[n] + s, b, t, c);
    } else {
      assert Cross([], s, b) == [] && Cross([], t, c) == [];
    }
  }

  lemma {:induction false} CrossMoves(a: seq<string>, s: string, t: string, right: seq<string>)
    ensures Cross(a, s, Prefixed(t, right)) == Cross(a, s + t, right)
  {
    if a != [] {
      var n := |a| - 1;
      CrossMoves(a[..n], s, t, right);
      PrefixedTwice(a[n] + s, t, right);
      assert a[n] + s + t == a[n] + (s + t);
    }
  }

  // One host whose text is that of the two, without anything in between.
  function Beside(a: Host, b: Host): Host {
    Host(a.groups + Behind(a.tail, b.groups), if b.groups == [] then a.tail + b.tail else b.tail)
  }

  function Behind(tail: string, groups: seq<Group>): seq<Group> {
    if groups == [] then []
    else if |groups| == 1 then [Group(tail + groups[0].literal, groups[0].spans)]
    else Behind(tail, groups[..|groups| - 1]) + [groups[|groups| - 1]]
  }

  lemma {:induction false} BehindFormed(tail: string, groups: seq<Group>)
    requires IsLiteral(tail) && GroupsFormed(groups)
    ensures GroupsFormed(Behind(tail, groups)) && (groups != [] ==> Behind(tail, groups) != [])
  {
    if groups != [] {
      LastApart(groups);
      assert GroupFormed(groups[0]) && GroupFormed(groups[|groups| - 1]);
      if |groups| > 1 {
        BehindFormed(tail, groups[..|groups| - 1]);
      }
    }
  }

  lemma {:induction false} BehindNames(before: seq<Group>, tail: string, groups: seq<Group>)
    requires GroupsFormed(before) && IsLiteral(tail) && GroupsFormed(groups) && groups != []
    ensures GroupsFormed(before + Behind(tail, groups))
    ensures GroupsNames(before + Behind(tail, groups)) == Cross(GroupsNames(before), tail, GroupsNames(groups))
  {
    BehindFormed(tail, groups);
    var n := |groups| - 1;
    var last := groups[n];
    assert GroupFormed(last);
    if n == 0 {
      var g := Group(tail + last.literal, last.spans);
      GroupPush(before, g);
      assert groups == [last] && groups[..0] == [];
      OneLeft(last.literal, SpansNames(last.spans));
      CrossMoves(GroupsNames(before), tail, last.literal, SpansNames(last.spans));
    } else {
      BehindNames(before, tail, groups[..n]);
      assert before + Behind(tail, groups) == (before + Behind(tail, groups[..n])) + [last];
      GroupPush(before + Behind(tail, groups[..n]), last);
      CrossCross(GroupsNames(before), tail, GroupsNames(groups[..n]), last.literal, SpansNames(last.spans));
    }
  }

  lemma {:induction false} GroupsTextAppend(a: seq<Group>, b: seq<Group>)
    requires forall g :: g in a || g in b ==> g.spans != []
    ensures RenderGroups(a + b) == RenderGroups(a) + RenderGroups(b)
  {
    if a == [] {
      assert a + b == b;
    } else {
      assert (a + b)[1..] == a[1..] + b;
      GroupsTextAppend(a[1..], b);
    }
  }

  lemma {:induction false} BehindText(tail: string, groups: seq<Group>)
    requires groups != [] && forall g :: g in groups ==> g.spans != []
    ensures forall g :: g in Behind(tail, groups) ==> g.spans != []
    ensures RenderGroups(Behind(tail, groups)) == tail + RenderGroups(groups)
  {
    var n := |groups| - 1;
    var last := groups[n];
    LastApart(groups);
    if n == 0 {
      var g := Group(tail + last.literal, last.spans);
      assert [g][1..] == [] && groups[1..] == [] && groups == [last];
      assert RenderGroups([g]) == RenderGroup(g) + "" && RenderGroups([last]) == RenderGroup(last) + "";
    } else {
      BehindText(tail, groups[..n]);
      GroupsTextAppend(Behind(tail, groups[..n]), [last]);
      GroupsTextAppend(groups[..n], [last]);
    }
  }

  lemma BesideFormed(a: Host, b: Host)
    requires HostFormed(a) && HostFormed(b)
    ensures HostFormed(Beside(a, b))
  {
    BehindFormed(a.tail, b.groups);
  }

  lemma BesideText(a: Host, b: Host)
    requires HostFormed(a) && HostFormed(b)
    ensures HostFormed(Beside(a, b)) && Filled(a) && Filled(b) && Filled(Beside(a, b))
    ensures RenderHost(Beside(a, b)) == RenderHost(a) + RenderHost(b)
  {
    BesideFormed(a, b);
    HostChars(a);
    HostChars(b);
    HostChars(Beside(a, b));
    if b.groups == [] {
      assert a.groups + [] == a.groups;
    } else {
      BehindText(a.tail, b.groups);
      GroupsTextAppend(a.groups, Behind(a.tail, b.groups));
    }
  }

  lemma BesideCrosses(a: Host, b: Host)
    requires HostFormed(a) && HostFormed(b) && HostFormed(Beside(a, b))
    ensures HostNames(Beside(a, b)) == Suffixed(Cross(GroupsNames(a.groups), a.tail, GroupsNames(b.groups)), b.tail)
  {
    var left := GroupsNames(a.groups);
    if b.groups == [] {
      assert a.groups + [] == a.groups;
      CrossEmpty(left, a.tail);
      SuffixedTwice(left, a.tail, b.tail);
    } else {
      BehindNames(a.groups, a.tail, b.groups);
    }
  }

  lemma {:induction false} CrossEmpty(left: seq<string>, literal: string)
    ensures Cross(left, literal, [""]) == Suffixed(left, literal)
  {
    if left != [] {
      var n := |left| - 1;
      CrossEmpty(left[..n], literal);
      assert left[n] + literal + "" == left[n] + literal;
    }
  }

  lemma SuffixedTwice(names: seq<string>, a: string, b: string)
    ensures Suffixed(Suffixed(names, a), b) == Suffixed(names, a + b)
  {
    forall k | 0 <= k < |names| ensures Suffixed(Suffixed(names, a), b)[k] == Suffixed(names, a + b)[k] {
      assert names[k] + a + b == names[k] + (a + b);
    }
  }

  lemma BesideNames(a: Host, b: Host, i: nat, k: nat)
    requires HostFormed(a) && HostFormed(b) && HostFormed(Beside(a, b))
    ensures |HostNames(Beside(a, b))| == Product(|HostNames(a)|, |HostNames(b)|)
    ensures i < |HostNames(a)| && k < |HostNames(b)| ==>
      && Product(i, |HostNames(b)|) + k < |HostNames(Beside(a, b))|
      && HostNames(Beside(a, b))[Product(i, |HostNames(b)|) + k] == HostNames(a)[i] + HostNames(b)[k]
  {
    var left, right := GroupsNames(a.groups), GroupsNames(b.groups);
    assert HostNames(Beside(a, b)) == Suffixed(Cross(left, a.tail, right), b.tail) by {
      BesideCrosses(a, b);
    }
    assert |HostNames(a)| == |left| && |HostNames(b)| == |right|;
    CrossSuffixed(left, a.tail, right, b.tail, i, k);
  }

  lemma CrossSuffixed(left: seq<string>, s: string, right: seq<string>, t: string, i: nat, k: nat)
    ensures var all := Suffixed(Cross(left, s, right), t);
      && |all| == Product(|left|, |right|)
      && (i < |left| && k < |right| ==> Product(i, |right|) + k < |all| && all[Product(i, |right|) + k] == (left[i] + s) + (right[k] + t))
  {
    CrossSize(left, s, right);
    if i < |left| && k < |right| {
      CrossAt(left, s, right, i, k);
      SuffixedAt(Cross(left, s, right), t, Product(i, |right|) + k, left[i] + s, right[k]);
    }
  }

  lemma SuffixedAt(names: seq<string>, t: string, at: nat, a: string, b: string)
    requires at < |names| && names[at] == a + b
    ensures Suffixed(names, t)[at] == a + (b + t)
  {
    assert (a + b) + t == a + (b + t);
  }

  // Two texts side by side: every name of the left one in front of every name of
  // the right one, the right one varying fastest.
  lemma SideBySide(a: Host, b: Host, i: nat, k: nat)
    requires HostFormed(a) && HostFormed(b) && Filled(a) && Filled(b)
    ensures var left, right := NodeList(RenderHost(a)), NodeList(RenderHost(b));
      var both := NodeList(RenderHost(a) + RenderHost(b));
      && (both.Some? ==> left.Some? && right.Some? && |both.value| == Product(|left.value|, |right.value|))
      && (left.Some? && right.Some? ==>
           && (both.Some? <==> Product(|left.value|, |right.value|) <= 100_000)
           && (both.Some? && i < |left.value| && k < |right.value| ==>
                && Product(i, |right.value|) + k < |both.value|
                && both.value[Product(i, |right.value|) + k] == left.value[i] + right.value[k]))
  {
    BesideText(a, b);
    HostExpands(a);
    HostExpands(b);
    HostExpands(Beside(a, b));
    BesideNames(a, b, i, k);
    NotEmpty(a);
    NotEmpty(b);
    AtLeastOne(|HostNames(a)|, |HostNames(b)|);
  }

  lemma AtLeastOne(a: nat, b: nat)
    requires 1 <= a && 1 <= b
    ensures a <= Product(a, b) && b <= Product(a, b)
  {
  }

  lemma NotEmpty(h: Host)
    requires HostFormed(h)
    ensures HostNames(h) != []
  {
    GroupsGrow(h.groups, 0);
    assert h.groups[..0] == [];
  }

  // ---- Lists of literals ----

  lemma LiteralHost(text: string)
    requires text != "" && IsLiteral(text)
    ensures Formed([Host([], text)]) && Filled(Host([], text)) && Render([Host([], text)]) == text
  {
    var h := Host([], text);
    assert [h][..0] == [] && RenderHosts([]) == [] && RenderHosts([h]) == [RenderHost(h)];
    assert RenderGroups([]) + text == text;
  }

  predicate AllLiterals(texts: seq<string>) {
    forall i :: 0 <= i < |texts| ==> texts[i] != "" && IsLiteral(texts[i])
  }

  function Literals(texts: seq<string>): seq<Host> {
    seq(|texts|, i requires 0 <= i < |texts| => Host([], texts[i]))
  }

  lemma {:induction false} LiteralsText(texts: seq<string>)
    requires texts != [] && AllLiterals(texts)
    ensures Formed(Literals(texts)) && (forall h :: h in Literals(texts) ==> Filled(h)) && Render(Literals(texts)) == Join(texts)
  {
    LiteralHost(texts[0]);
    if |texts| == 1 {
      assert Literals(texts) == [Host([], texts[0])];
    } else {
      LiteralsText(texts[1..]);
      assert Literals(texts) == [Host([], texts[0])] + Literals(texts[1..]);
      CommaOutside([Host([], texts[0])], Literals(texts[1..]));
    }
  }

  // Literals separated by commas stand for themselves, in order.
  lemma {:induction false} LiteralsAreThemselves(texts: seq<string>)
    requires texts != [] && |texts| <= 100_000 && AllLiterals(texts)
    ensures NodeList(Join(texts)) == Some(texts)
  {
    LiteralIsItself(texts[0]);
    if |texts| == 1 {
      assert texts == [texts[0]];
    } else {
      LiteralsAreThemselves(texts[1..]);
      assert texts == [texts[0]] + texts[1..];
      OneMoreLiteral(texts[0], texts[1..]);
    }
  }

  lemma OneMoreLiteral(first: string, rest: seq<string>)
    requires first != "" && IsLiteral(first) && rest != [] && AllLiterals(rest)
    ensures NodeList(first + "," + Join(rest)) == Both(NodeList(first), NodeList(Join(rest)))
  {
    LiteralHost(first);
    LiteralsText(rest);
    CommaOutside([Host([], first)], Literals(rest));
  }

  // Numbers are decimal.
  lemma TenIsTen()
    ensures DigitsValue("10") == 10 && Digits(10) == "10" && Pad(3, 10) == "010"
  {
    assert "10"[..1] == "1" && "1"[..0] == "";
    assert Digits(1) == "1" && Zeros(1) == "0";
    assert "1" + "0" == "10" && "0" + "10" == "010";
  }
}
