// The parser of host lists accepts exactly the well-formed ones, and every one
// of them can be read in one way only.
module Grammar {
  import opened Wrappers
  import opened Hostlist

  lemma IndexOfFirst(a: string, c: char, rest: string)
    requires c !in a
    ensures IndexOf(a + [c] + rest, c) == |a|
    ensures IndexOf(a, c) == |a|
  {
    var s := a + [c] + rest;
    assert s[|a|] == c;
    assert forall k :: 0 <= k < |a| ==> a[k] != c && s[k] == a[k];
  }

  lemma LastApart<T>(s: seq<T>)
    requires s != []
    ensures s == s[..|s| - 1] + [s[|s| - 1]]
  {
  }

  lemma PrefixGrows<T>(s: seq<T>, i: nat)
    requires i < |s|
    ensures s[..i + 1] == s[..i] + [s[i]]
  {
  }

  lemma Whole<T>(s: seq<T>)
    ensures s[..|s|] == s
  {
  }

  // ---- Spans ----

  lemma ValueSign(s: string)
    requires IsNumber(s)
    ensures '-' !in s ==> 0 <= NumberValue(s)
  {
    assert s[0] in s;
  }

  lemma SpanSound(text: string)
    requires ParseSpan(text).Some?
    ensures SpanFormed(SpanOf(text)) && RenderSpan(SpanOf(text)) == text
    ensures var s := SpanOf(text);
      ParseSpan(text).value == Bounds(NumberValue(Low(s)), NumberValue(High(s)), |Low(s)|)
  {
    var i := IndexOf(text, '-');
    if i < |text| {
      assert text == text[..i] + "-" + text[i + 1..];
    } else {
      assert text[..i] == text;
    }
  }

  lemma SpanComplete(s: Span)
    requires SpanFormed(s)
    ensures SpanOf(RenderSpan(s)) == s
    ensures ParseSpan(RenderSpan(s)) == Some(Bounds(NumberValue(Low(s)), NumberValue(High(s)), |Low(s)|))
  {
    ValueSign(Low(s));
    match s {
      case One(text) =>
        IndexOfFirst(text, '-', "");
      case Range(first, last) =>
        var text := first + "-" + last;
        IndexOfFirst(first, '-', last);
        assert text[..|first|] == first && text[|first| + 1..] == last;
    }
  }

  predicate SpanChar(c: char) {
    IsDigit(c) || c == '+' || c == '-'
  }

  lemma NumberChars(s: string)
    requires IsNumber(s)
    ensures forall c :: c in s ==> SpanChar(c)
  {
    forall c | c in s ensures SpanChar(c) {
      var i :| 0 <= i < |s| && s[i] == c;
      if 0 < i || Unsigned(s) == s {
        assert c in Unsigned(s) by {
          assert if Unsigned(s) == s then Unsigned(s)[i] == c else Unsigned(s)[i - 1] == c;
        }
      }
    }
  }

  lemma SpanChars(s: Span)
    requires SpanFormed(s)
    ensures forall c :: c in RenderSpan(s) ==> SpanChar(c)
  {
    NumberChars(Low(s));
    NumberChars(High(s));
  }

  // ---- Joining and splitting ----

  lemma {:induction false} SplitJoined(parts: seq<string>)
    requires parts != [] && forall p :: p in parts ==> ',' !in p
    ensures Split(Join(parts), ',') == parts
  {
    var s := Join(parts);
    if |parts| == 1 {
      IndexOfFirst(parts[0], ',', "");
    } else {
      IndexOfFirst(parts[0], ',', Join(parts[1..]));
      assert s[..|parts[0]|] == parts[0] && s[|parts[0]| + 1..] == Join(parts[1..]);
      SplitJoined(parts[1..]);
    }
  }

  lemma {:induction false} JoinSplit(s: string)
    ensures Join(Split(s, ',')) == s
    decreases |s|
  {
    var i := IndexOf(s, ',');
    if i < |s| {
      JoinSplit(s[i + 1..]);
      JoinCons(s[..i], Split(s[i + 1..], ','));
      Halved(s, i);
    }
  }

  lemma JoinCons(first: string, rest: seq<string>)
    requires rest != []
    ensures Join([first] + rest) == first + "," + Join(rest)
  {
    assert ([first] + rest)[1..] == rest;
  }

  lemma Halved(s: string, i: nat)
    requires i < |s|
    ensures s == s[..i] + [s[i]] + s[i + 1..]
  {
  }

  lemma {:induction false} JoinPush(parts: seq<string>, last: string)
    requires parts != []
    ensures Join(parts + [last]) == Join(parts) + "," + last
  {
    if |parts| > 1 {
      assert (parts + [last])[1..] == parts[1..] + [last];
      JoinPush(parts[1..], last);
    }
  }

  lemma {:induction false} JoinChars(parts: seq<string>, p: char -> bool)
    requires parts != [] && p(',') && forall i :: 0 <= i < |parts| ==> AllOf(parts[i], p)
    ensures AllOf(Join(parts), p)
  {
    if |parts| > 1 {
      JoinChars(parts[1..], p);
    }
  }

  predicate AllOf(s: string, p: char -> bool) {
    forall c :: c in s ==> p(c)
  }

  // ---- Brackets ----

  lemma {:induction false} SpansSound(texts: seq<string>)
    requires ParseSpans(texts).Some?
    ensures forall s :: s in ParseSpans(texts).value ==> SpanFormed(s)
    ensures RenderSpans(ParseSpans(texts).value) == texts
  {
    if texts != [] {
      var rest, last := texts[..|texts| - 1], texts[|texts| - 1];
      LastApart(texts);
      SpansSound(rest);
      SpanSound(last);
    }
  }

  lemma {:induction false} SpansComplete(spans: seq<Span>)
    requires forall s :: s in spans ==> SpanFormed(s)
    ensures ParseSpans(RenderSpans(spans)) == Some(spans)
  {
    if spans != [] {
      var rest, last := spans[..|spans| - 1], spans[|spans| - 1];
      LastApart(spans);
      SpansComplete(rest);
      SpanComplete(last);
      assert RenderSpans(spans)[..|rest|] == RenderSpans(rest);
    }
  }

  predicate BracketChar(c: char) {
    SpanChar(c) || c == ','
  }

  lemma {:induction false} SpansChars(spans: seq<Span>)
    requires forall s :: s in spans ==> SpanFormed(s)
    ensures forall i :: 0 <= i < |spans| ==> AllOf(RenderSpans(spans)[i], SpanChar)
  {
    if spans != [] {
      SpansChars(spans[..|spans| - 1]);
      SpanChars(spans[|spans| - 1]);
    }
  }

  lemma GroupChars(g: Group)
    requires GroupFormed(g)
    ensures AllOf(Join(RenderSpans(g.spans)), BracketChar)
    ensures forall t :: t in RenderSpans(g.spans) ==> ',' !in t
  {
    SpansChars(g.spans);
    JoinChars(RenderSpans(g.spans), BracketChar);
  }

  lemma BodySound(body: string)
    requires ParseBody(body).Some?
    ensures var spans := ParseBody(body).value;
      spans != [] && (forall s :: s in spans ==> SpanFormed(s)) && Join(RenderSpans(spans)) == body
  {
    SpansSound(Split(body, ','));
    JoinSplit(body);
  }

  lemma BodyComplete(g: Group)
    requires GroupFormed(g)
    ensures ParseBody(Join(RenderSpans(g.spans))) == Some(g.spans)
    ensures ']' !in Join(RenderSpans(g.spans))
  {
    GroupChars(g);
    SplitJoined(RenderSpans(g.spans));
    SpansComplete(g.spans);
  }

  // ---- Hosts ----

  function Bracketed(literal: string, body: string, rest: string): string {
    literal + "[" + body + "]" + rest
  }

  lemma BracketsFound(literal: string, body: string, rest: string)
    requires '[' !in literal && ']' !in body
    ensures var part, open, close := Bracketed(literal, body, rest), |literal|, |literal| + 1 + |body|;
      && IndexOf(part, '[') == open && open + IndexOf(part[open..], ']') == close
      && part[..open] == literal && part[open + 1..close] == body && part[close + 1..] == rest && close < |part|
  {
    var part, open := Bracketed(literal, body, rest), |literal|;
    assert part == literal + ['['] + (body + "]" + rest);
    IndexOfFirst(literal, '[', body + "]" + rest);
    assert part[open..] == ("[" + body) + [']'] + rest;
    IndexOfFirst("[" + body, ']', rest);
  }

  lemma BracketsCut(part: string, open: nat, close: nat)
    requires open < close < |part| && part[open] == '[' && part[close] == ']'
    ensures part == Bracketed(part[..open], part[open + 1..close], part[close + 1..])
  {
  }

  // Everything up to the end of a host, which may be empty.
  predicate RestFormed(h: Host) {
    GroupsFormed(h.groups) && IsLiteral(h.tail)
  }

  lemma RestIsFilled(h: Host)
    requires RestFormed(h)
    ensures Filled(h)
  {
    forall g | g in h.groups ensures g.spans != [] {
      assert GroupFormed(g);
    }
  }

  lemma RenderPush(g: Group, rest: Host)
    requires GroupFormed(g) && RestFormed(rest)
    ensures RestFormed(Push(g, rest)) && Filled(Push(g, rest)) && Filled(rest)
    ensures RenderHost(Push(g, rest)) == Bracketed(g.literal, Join(RenderSpans(g.spans)), RenderHost(rest))
  {
    RestIsFilled(rest);
    RestIsFilled(Push(g, rest));
    assert Push(g, rest).groups[1..] == rest.groups;
  }

  // One step of the parser.
  lemma RestStep(literal: string, body: string, rest: string)
    requires '[' !in literal && ']' !in body
    ensures ParseRest(Bracketed(literal, body, rest)) == Grow(literal, ParseBody(body), ParseRest(rest))
  {
    var part := Bracketed(literal, body, rest);
    assert IndexOf(part, '[') < |part| && Cut(part) == Some(Pieces(literal, body, rest)) by {
      BracketsFound(literal, body, rest);
    }
  }

  lemma RestPlain(part: string)
    requires '[' !in part
    ensures ParseRest(part) == if IsLiteral(part) then Some(Host([], part)) else None
  {
    IndexOfFirst(part, '[', "");
  }

  lemma CutSound(part: string)
    requires '[' in part && Cut(part).Some?
    ensures var p := Cut(part).value; part == Bracketed(p.literal, p.body, p.behind) && '[' !in p.literal && ']' !in p.body
  {
    var open := IndexOf(part, '[');
    if open == |part| {
      Whole(part);
      assert false;
    }
    var close := open + IndexOf(part[open..], ']');
    assert part[open..][close - open] == ']';
    assert part[open..][..close - open][1..] == part[open + 1..close];
    BracketsCut(part, open, close);
  }

  lemma RestCut(part: string)
    requires '[' in part && ParseRest(part).Some?
    ensures Cut(part).Some? && ParseRest(part) == Grow(Cut(part).value.literal, ParseBody(Cut(part).value.body), ParseRest(Cut(part).value.behind))
  {
    if IndexOf(part, '[') == |part| {
      Whole(part);
      assert false;
    }
  }

  lemma {:induction false} RestSound(part: string)
    requires ParseRest(part).Some?
    ensures var h := ParseRest(part).value; RestFormed(h) && Filled(h) && RenderHost(h) == part
    decreases |part|
  {
    if '[' in part {
      RestCut(part);
      CutSound(part);
      var p := Cut(part).value;
      RestSound(p.behind);
      BodySound(p.body);
      RenderPush(Group(p.literal, ParseBody(p.body).value), ParseRest(p.behind).value);
    } else {
      RestPlain(part);
    }
  }

  lemma {:induction false} RestComplete(h: Host)
    requires RestFormed(h) && Filled(h)
    ensures ParseRest(RenderHost(h)) == Some(h)
    decreases |h.groups|
  {
    if h.groups == [] {
      assert RenderHost(h) == h.tail;
      RestPlain(h.tail);
    } else {
      var g, rest := h.groups[0], Host(h.groups[1..], h.tail);
      assert GroupFormed(g);
      assert h == Push(g, rest);
      RenderPush(g, rest);
      RestComplete(rest);
      BodyComplete(g);
      RestStep(g.literal, Join(RenderSpans(g.spans)), RenderHost(rest));
    }
  }

  // ---- Lists ----

  function Then(st: Option<Scan>, s: string): Option<Scan> {
    match st
    case None => None
    case Some(before) => ScanAll(before, s)
  }

  lemma {:induction false} ScanAppend(st: Scan, a: string, b: string)
    ensures ScanAll(st, a + b) == Then(ScanAll(st, a), b)
  {
    if b == "" {
      assert a + b == a;
    } else {
      var n := |a| + |b| - 1;
      assert (a + b)[..n] == a + b[..|b| - 1] && (a + b)[n] == b[|b| - 1];
      ScanAppend(st, a, b[..|b| - 1]);
    }
  }

  predicate Plain(c: char, open: bool) {
    c != '[' && c != ']' && (c == ',' ==> open)
  }

  lemma {:induction false} ScanPlain(st: Scan, s: string)
    requires forall i :: 0 <= i < |s| ==> Plain(s[i], st.open)
    ensures ScanAll(st, s) == Some(Scan(st.parts, st.current + s, st.open))
  {
    if s == "" {
      assert st.current + s == st.current;
    } else {
      ScanPlain(st, s[..|s| - 1]);
      LastApart(s);
      assert st.current + s == st.current + s[..|s| - 1] + [s[|s| - 1]];
    }
  }

  lemma LiteralIsPlain(s: string)
    requires IsLiteral(s)
    ensures forall i :: 0 <= i < |s| ==> Plain(s[i], false)
  {
    assert forall i :: 0 <= i < |s| ==> s[i] in s;
  }

  lemma BodyIsPlain(g: Group)
    requires GroupFormed(g)
    ensures forall i :: 0 <= i < |Join(RenderSpans(g.spans))| ==> Plain(Join(RenderSpans(g.spans))[i], true)
  {
    var body := Join(RenderSpans(g.spans));
    GroupChars(g);
    assert forall i :: 0 <= i < |body| ==> body[i] in body && BracketChar(body[i]);
  }

  lemma ScanOne(st: Scan, c: char)
    ensures ScanAll(st, [c]) == Step(st, c)
  {
    assert [c][..0] == "";
    assert ScanAll(st, "") == Some(st);
  }

  lemma ScanBracket(st: Scan, literal: string, body: string)
    requires IsLiteral(literal) && !st.open && forall i :: 0 <= i < |body| ==> Plain(body[i], true)
    ensures ScanAll(st, literal + "[" + body + "]") == Some(Scan(st.parts, st.current + (literal + "[" + body + "]"), false))
  {
    LiteralIsPlain(literal);
    var a := Scan(st.parts, st.current + literal, false);
    var b := Scan(st.parts, a.current + "[", true);
    var c := Scan(st.parts, b.current + body, true);
    ScanPlain(st, literal);
    ScanOne(a, '[');
    ScanPlain(b, body);
    ScanOne(c, ']');
    ScanAppend(st, literal, "[");
    ScanAppend(st, literal + "[", body);
    ScanAppend(st, literal + "[" + body, "]");
    Regroup(st.current, literal, body);
  }

  lemma ScanGroup(st: Scan, g: Group)
    requires GroupFormed(g) && !st.open
    ensures ScanAll(st, RenderGroup(g)) == Some(Scan(st.parts, st.current + RenderGroup(g), false))
  {
    BodyIsPlain(g);
    ScanBracket(st, g.literal, Join(RenderSpans(g.spans)));
  }

  lemma Regroup(current: string, literal: string, body: string)
    ensures current + (literal + "[" + body + "]") == current + literal + "[" + body + "]"
  {
  }

  lemma {:induction false} ScanHost(st: Scan, h: Host)
    requires RestFormed(h) && Filled(h) && !st.open
    ensures ScanAll(st, RenderHost(h)) == Some(Scan(st.parts, st.current + RenderHost(h), false))
    decreases |h.groups|
  {
    if h.groups == [] {
      assert RenderHost(h) == h.tail;
      LiteralIsPlain(h.tail);
      ScanPlain(st, h.tail);
    } else {
      var g, rest := h.groups[0], Host(h.groups[1..], h.tail);
      assert GroupFormed(g);
      var a := Scan(st.parts, st.current + RenderGroup(g), false);
      ScanGroup(st, g);
      ScanHost(a, rest);
      assert RenderHost(h) == RenderGroup(g) + RenderHost(rest);
      ScanAppend(st, RenderGroup(g), RenderHost(rest));
      assert st.current + RenderHost(h) == a.current + RenderHost(rest);
    }
  }

  lemma {:induction false} ScanHosts(hosts: seq<Host>)
    requires hosts != [] && forall h :: h in hosts ==> RestFormed(h) && Filled(h)
    ensures var texts := RenderHosts(hosts);
      ScanAll(START, Join(texts)) == Some(Scan(texts[..|texts| - 1], texts[|texts| - 1], false))
  {
    var texts, n := RenderHosts(hosts), |hosts| - 1;
    assert hosts[n] in hosts;
    if n == 0 {
      ScanHost(START, hosts[0]);
      assert "" + texts[0] == texts[0] && texts[..0] == [];
    } else {
      var before := RenderHosts(hosts[..n]);
      ScanHosts(hosts[..n]);
      JoinPush(before, texts[n]);
      var a := Scan(before[..n - 1], before[n - 1], false);
      var b := Scan(before, "", false);
      LastApart(before);
      ScanOne(a, ',');
      ScanAppend(START, Join(before), ",");
      ScanHost(b, hosts[n]);
      ScanAppend(START, Join(before) + ",", texts[n]);
      assert "" + texts[n] == texts[n];
      assert texts[..n] == before;
    }
  }

  // Joining what was split off gives back what was read.
  lemma {:induction false} ScanSound(s: string)
    requires ScanAll(START, s).Some?
    ensures var st := ScanAll(START, s).value; Join(st.parts + [st.current]) == s
  {
    if s != "" {
      var n := |s| - 1;
      var before, after := ScanAll(START, s[..n]).value, ScanAll(START, s).value;
      ScanSound(s[..n]);
      LastApart(s);
      if s[n] == ',' && !before.open {
        JoinPush(before.parts + [before.current], "");
      } else {
        JoinExtend(before.parts, before.current, [s[n]]);
      }
    }
  }

  lemma {:induction false} JoinExtend(parts: seq<string>, last: string, more: string)
    ensures Join(parts + [last + more]) == Join(parts + [last]) + more
  {
    if parts != [] {
      assert (parts + [last + more])[1..] == parts[1..] + [last + more];
      assert (parts + [last])[1..] == parts[1..] + [last];
      JoinExtend(parts[1..], last, more);
    }
  }

  lemma HostComplete(h: Host)
    requires HostFormed(h)
    ensures RestFormed(h) && Filled(h) && ParseHost(RenderHost(h)) == Some(h)
  {
    RestIsFilled(h);
    RestComplete(h);
    if h.groups != [] {
      var g := h.groups[0];
      assert RenderHost(h) == RenderGroup(g) + RenderGroups(h.groups[1..]) + h.tail;
      assert |RenderGroup(g)| > 0;
    }
  }

  lemma HostSound(part: string)
    requires ParseHost(part).Some?
    ensures var h := ParseHost(part).value; HostFormed(h) && Filled(h) && RenderHost(h) == part
  {
    RestSound(part);
  }

  lemma {:induction false} HostsSound(parts: seq<string>)
    requires ParseHosts(parts).Some?
    ensures var hosts := ParseHosts(parts).value;
      && |hosts| == |parts| && (forall h :: h in hosts ==> HostFormed(h) && Filled(h)) && RenderHosts(hosts) == parts
  {
    if parts != [] {
      HostsSound(parts[..|parts| - 1]);
      HostSound(parts[|parts| - 1]);
      LastApart(parts);
    }
  }

  lemma {:induction false} HostsComplete(hosts: seq<Host>)
    requires forall h :: h in hosts ==> HostFormed(h)
    ensures forall h :: h in hosts ==> RestFormed(h) && Filled(h)
    ensures ParseHosts(RenderHosts(hosts)) == Some(hosts)
  {
    if hosts != [] {
      var rest, last := hosts[..|hosts| - 1], hosts[|hosts| - 1];
      LastApart(hosts);
      HostsComplete(rest);
      HostComplete(last);
      assert RenderHosts(hosts)[..|rest|] == RenderHosts(rest);
    }
  }

  // The parser accepts exactly the well-formed lists, each in one reading.
  lemma ParseIsExact(text: string, hosts: seq<Host>)
    ensures Parse(text) == Some(hosts) <==> Formed(hosts) && (forall h :: h in hosts ==> Filled(h)) && Render(hosts) == text
  {
    if Formed(hosts) && (forall h :: h in hosts ==> Filled(h)) && Render(hosts) == text {
      HostsComplete(hosts);
      ScanHosts(hosts);
      LastApart(RenderHosts(hosts));
    }
    if Parse(text) == Some(hosts) {
      ScanSound(text);
      HostsSound(SplitTopLevel(text).value);
    }
  }
}
