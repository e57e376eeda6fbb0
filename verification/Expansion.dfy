// Expanding a host list: the loops, in 64-bit arithmetic, and what they return.
module Expansion {
  import opened Wrappers
  import opened Hostlist
  import opened Grammar
  import Text

  newtype int64 = x: int | -0x8000_0000_0000_0000 <= x < 0x8000_0000_0000_0000

  const CAP64: int64 := CAP as int64

  function Fitting(names: seq<string>): Option<seq<string>> {
    if |names| <= CAP then Some(names) else None
  }

  // ---- Sizes ----

  function Product(a: nat, b: nat): nat {
    a * b
  }

  lemma ProductGrows(a: nat, b: nat, c: nat)
    requires 1 <= b && a <= c
    ensures a <= Product(a, b) && Product(a, b) <= Product(c, b)
    ensures Product(a + 1, b) == Product(a, b) + b && Product(0, b) == 0
  {
  }

  lemma {:induction false} CrossSize(left: seq<string>, literal: string, right: seq<string>)
    ensures |Cross(left, literal, right)| == Product(|left|, |right|)
  {
    if left != [] {
      CrossSize(left[..|left| - 1], literal, right);
      assert Product(|left| - 1, |right|) + |right| == Product(|left|, |right|);
    }
  }

  // The names of a group are ordered like the digits of a number: the left name
  // varies slowest.
  lemma {:induction false} CrossAt(left: seq<string>, literal: string, right: seq<string>, i: nat, k: nat)
    requires i < |left| && k < |right|
    ensures Product(i, |right|) + k < |Cross(left, literal, right)|
    ensures Cross(left, literal, right)[Product(i, |right|) + k] == left[i] + literal + right[k]
  {
    var n := |left| - 1;
    CrossSize(left[..n], literal, right);
    if i < n {
      CrossAt(left[..n], literal, right, i, k);
    }
  }

  lemma GroupPush(groups: seq<Group>, g: Group)
    requires GroupsFormed(groups) && GroupFormed(g)
    ensures GroupsFormed(groups + [g])
    ensures GroupsNames(groups + [g]) == Cross(GroupsNames(groups), g.literal, SpansNames(g.spans))
    ensures |GroupsNames(groups + [g])| == Product(|GroupsNames(groups)|, |SpansNames(g.spans)|)
    ensures |GroupsNames(groups)| <= |GroupsNames(groups + [g])|
  {
    assert (groups + [g])[..|groups|] == groups;
    CrossSize(GroupsNames(groups), g.literal, SpansNames(g.spans));
    ProductGrows(|GroupsNames(groups)|, |SpansNames(g.spans)|, |GroupsNames(groups)|);
  }

  // More groups never make fewer names.
  lemma {:induction false} GroupsGrow(groups: seq<Group>, n: nat)
    requires GroupsFormed(groups) && n <= |groups|
    ensures |GroupsNames(groups[..n])| <= |GroupsNames(groups)|
    decreases |groups| - n
  {
    if n == |groups| {
      Whole(groups);
    } else {
      GroupsGrow(groups, n + 1);
      PrefixGrows(groups, n);
      GroupPush(groups[..n], groups[n]);
    }
  }

  lemma {:induction false} SpansGrow(spans: seq<Span>, n: nat)
    requires n <= |spans| && forall s :: s in spans ==> SpanFormed(s)
    ensures |SpansNames(spans[..n])| <= |SpansNames(spans)|
  {
    if n < |spans| {
      SpansGrow(spans[..|spans| - 1], n);
      assert spans[..|spans| - 1][..n] == spans[..n];
    } else {
      assert spans[..n] == spans;
    }
  }

  lemma {:induction false} NamesGrow(hosts: seq<Host>, n: nat)
    requires n <= |hosts| && forall h :: h in hosts ==> HostFormed(h)
    ensures |Names(hosts[..n])| <= |Names(hosts)|
  {
    if n < |hosts| {
      NamesGrow(hosts[..|hosts| - 1], n);
      assert hosts[..|hosts| - 1][..n] == hosts[..n];
    } else {
      assert hosts[..n] == hosts;
    }
  }

  // ---- One bracket ----

  function BracketNames(texts: seq<string>): Option<seq<string>> {
    if ParseSpans(texts) == None then None
    else
      SpansSound(texts);
      Fitting(SpansNames(ParseSpans(texts).value))
  }

  lemma {:induction false} SpansFail(texts: seq<string>, n: nat)
    requires n <= |texts| && BracketNames(texts[..n]) == None
    ensures BracketNames(texts) == None
    decreases |texts| - n
  {
    if n < |texts| {
      assert texts[..n + 1][..n] == texts[..n];
      if ParseSpans(texts[..n + 1]).Some? {
        SpansSound(texts[..n + 1]);
        SpansSound(texts[..n]);
        var spans := ParseSpans(texts[..n + 1]).value;
        SpansGrow(spans, |spans| - 1);
      }
      SpansFail(texts, n + 1);
    } else {
      assert texts[..n] == texts;
    }
  }

  method AppendSpan(nums: seq<string>, b: Bounds) returns (r: Option<seq<string>>)
    requires 0 <= b.lo <= b.hi <= MAX_INT64 && |nums| <= CAP
    ensures r == Fitting(nums + NamesOf(b))
  {
    var lo, hi := b.lo as int64, b.hi as int64;
    if CAP64 <= hi - lo || CAP64 - (hi - lo + 1) < |nums| as int64 {
      return None;
    }
    var grown := nums;
    var k: int64 := 0;
    while k <= hi - lo
      invariant 0 <= k <= hi - lo + 1
      invariant grown == nums + Numbered(b.width, b.lo, k as int)
    {
      assert Numbered(b.width, b.lo, k as int + 1) == Numbered(b.width, b.lo, k as int) + [Pad(b.width, (lo + k) as int)];
      grown := grown + [Pad(b.width, (lo + k) as int)];
      k := k + 1;
    }
    return Some(grown);
  }

  method ExpandBracket(body: string) returns (r: Option<seq<string>>)
    ensures r == BracketNames(Split(body, ','))
  {
    var texts := Split(body, ',');
    var nums: seq<string> := [];
    for i := 0 to |texts|
      invariant BracketNames(texts[..i]) == Some(nums)
    {
      PrefixGrows(texts, i);
      BracketGrows(texts[..i], texts[i]);
      var b := ParseSpan(texts[i]);
      if b == None {
        SpansFail(texts, i + 1);
        return None;
      }
      r := AppendSpan(nums, b.value);
      if r == None {
        SpansFail(texts, i + 1);
        return None;
      }
      nums := r.value;
    }
    Whole(texts);
    return Some(nums);
  }

  function NamesOf(b: Bounds): seq<string>
    requires 0 <= b.lo <= b.hi
  {
    Numbered(b.width, b.lo, b.hi - b.lo + 1)
  }

  lemma SpanNamed(text: string)
    requires ParseSpan(text).Some?
    ensures var b, s := ParseSpan(text).value, SpanOf(text);
      0 <= b.lo <= b.hi <= MAX_INT64 && SpanFormed(s) && SpanNames(s) == NamesOf(b)
  {
    SpanSound(text);
    LowIsNatural(SpanOf(text));
  }

  lemma NamesPush(spans: seq<Span>, s: Span)
    requires (forall x :: x in spans ==> SpanFormed(x)) && SpanFormed(s)
    ensures SpansNames(spans + [s]) == SpansNames(spans) + SpanNames(s)
  {
    assert (spans + [s])[..|spans|] == spans;
  }

  lemma ParsedPush(texts: seq<string>, text: string)
    ensures ParseSpans(texts + [text]) ==
      if ParseSpans(texts).Some? && ParseSpan(text).Some? then Some(ParseSpans(texts).value + [SpanOf(text)]) else None
  {
    assert (texts + [text])[..|texts|] == texts;
  }

  // What one more span does to the names of a bracket.
  lemma BracketGrows(texts: seq<string>, text: string)
    requires BracketNames(texts).Some?
    ensures ParseSpan(text) == None ==> BracketNames(texts + [text]) == None
    ensures ParseSpan(text).Some? ==>
      var b := ParseSpan(text).value;
      && 0 <= b.lo <= b.hi <= MAX_INT64
      && BracketNames(texts + [text]) == Fitting(BracketNames(texts).value + NamesOf(b))
  {
    ParsedPush(texts, text);
    if ParseSpan(text).Some? {
      SpansSound(texts);
      SpansSound(texts + [text]);
      SpanNamed(text);
      NamesPush(ParseSpans(texts).value, SpanOf(text));
    }
  }

  // ---- One host ----

  function ExpandedHost(part: string): Option<seq<string>> {
    if ParseHost(part) == None then None
    else
      HostSound(part);
      Fitting(HostNames(ParseHost(part).value))
  }

  method CrossProduct(left: seq<string>, literal: string, right: seq<string>) returns (next: seq<string>)
    ensures next == Cross(left, literal, right)
  {
    next := [];
    for i := 0 to |left|
      invariant next == Cross(left[..i], literal, right)
    {
      PrefixGrows(left, i);
      LastApart(left[..i + 1]);
      ghost var before := next;
      for k := 0 to |right|
        invariant next == before + Prefixed(left[i] + literal, right[..k])
      {
        PrefixGrows(right, k);
        next := next + [left[i] + literal + right[k]];
      }
      Whole(right);
    }
    Whole(left);
  }

  method AppendTail(names: seq<string>, tail: string) returns (grown: seq<string>)
    ensures grown == Suffixed(names, tail)
  {
    grown := names;
    for i := 0 to |names|
      invariant |grown| == |names|
      invariant forall k :: 0 <= k < i ==> grown[k] == names[k] + tail
      invariant forall k :: i <= k < |names| ==> grown[k] == names[k]
    {
      grown := grown[i := grown[i] + tail];
    }
  }

  // The groups read so far, and what is left to read.
  function After(groups: seq<Group>, rest: Option<Host>): Option<Host> {
    match rest
    case None => None
    case Some(h) => Some(Host(groups + h.groups, h.tail))
  }

  lemma AfterPush(groups: seq<Group>, literal: string, spans: Option<seq<Span>>, rest: Option<Host>)
    ensures After(groups, Grow(literal, spans, rest)) ==
      if IsLiteral(literal) && spans.Some? then After(groups + [Group(literal, spans.value)], rest) else None
  {
    if IsLiteral(literal) && spans.Some? && rest.Some? {
      assert groups + ([Group(literal, spans.value)] + rest.value.groups) == groups + [Group(literal, spans.value)] + rest.value.groups;
    }
  }

  // A host is too large when its first groups already are.
  lemma TooManyGroups(part: string, groups: seq<Group>, rest: Option<Host>)
    requires part != "" && ParseRest(part) == After(groups, rest) && GroupsFormed(groups) && CAP < |GroupsNames(groups)|
    ensures ExpandedHost(part) == None
  {
    if rest.Some? {
      HostSound(part);
      var all := groups + rest.value.groups;
      GroupsGrow(all, |groups|);
      assert all[..|groups|] == groups;
    }
  }

  // What has been read of a host, and the names it makes so far.
  ghost predicate Reading(whole: string, part: string, groups: seq<Group>, results: seq<string>) {
    && whole != "" && ParseRest(whole) == After(groups, ParseRest(part))
    && GroupsFormed(groups) && results == GroupsNames(groups) && |results| <= CAP
  }

  lemma FailsWithout(whole: string)
    requires whole != "" && ParseRest(whole) == None
    ensures ExpandedHost(whole) == None
  {
  }

  lemma GroupTooLarge(whole: string, groups: seq<Group>, g: Group, rest: Option<Host>)
    requires whole != "" && ParseRest(whole) == After(groups + [g], rest) && GroupsFormed(groups) && GroupFormed(g)
    requires CAP < |SpansNames(g.spans)| || CAP < Product(|GroupsNames(groups)|, |SpansNames(g.spans)|)
    ensures ExpandedHost(whole) == None
  {
    GroupPush(groups, g);
    GroupsAreSome(groups);
    ProductGrows(1, |SpansNames(g.spans)|, |GroupsNames(groups)|);
    TooManyGroups(whole, groups + [g], rest);
  }

  lemma {:induction false} GroupsAreSome(groups: seq<Group>)
    requires GroupsFormed(groups)
    ensures 1 <= |GroupsNames(groups)|
  {
    GroupsGrow(groups, 0);
  }

  lemma NoBracket(whole: string, part: string, groups: seq<Group>, results: seq<string>)
    requires Reading(whole, part, groups, results) && IndexOf(part, '[') < |part|
    requires Cut(part) == None || !IsLiteral(Cut(part).value.literal)
    ensures ExpandedHost(whole) == None
  {
    assert ParseRest(part) == None;
  }

  lemma NextGroup(whole: string, part: string, groups: seq<Group>, results: seq<string>, p: Pieces)
    requires Reading(whole, part, groups, results) && IndexOf(part, '[') < |part|
    requires Cut(part) == Some(p) && IsLiteral(p.literal)
    ensures ParseRest(whole) ==
      if ParseBody(p.body).Some? then After(groups + [Group(p.literal, ParseBody(p.body).value)], ParseRest(p.behind)) else None
  {
    AfterPush(groups, p.literal, ParseBody(p.body), ParseRest(p.behind));
  }

  lemma ProductBounded(a: nat, b: nat)
    requires a <= CAP && b <= CAP
    ensures Product(a, b) <= 10_000_000_000
  {
    assert 0 <= (CAP - a) * b;
  }

  method Exceeds(a: nat, b: nat) returns (tooMany: bool)
    requires a <= CAP && b <= CAP
    ensures tooMany == (CAP < Product(a, b))
  {
    ProductBounded(a, b);
    var x, y := a as int64, b as int64;
    assert x as int * y as int == Product(a, b);
    tooMany := CAP64 < x * y;
  }

  // One group, with its literal. The size is checked before the product is made,
  // and no intermediate result ever exceeds the cap.
  method ReadGroup(literal: string, body: string, results: seq<string>, ghost whole: string, ghost groups: seq<Group>, ghost rest: Option<Host>)
    returns (next: Option<seq<string>>, ghost read: seq<Group>)
    requires whole != "" && IsLiteral(literal) && GroupsFormed(groups) && results == GroupsNames(groups) && |results| <= CAP
    requires ParseRest(whole) == if ParseBody(body).Some? then After(groups + [Group(literal, ParseBody(body).value)], rest) else None
    ensures next == None ==> ExpandedHost(whole) == None
    ensures next.Some? ==>
      && ParseRest(whole) == After(read, rest) && GroupsFormed(read) && next.value == GroupsNames(read) && |next.value| <= CAP
  {
    read := groups;
    var nums := ExpandBracket(body);
    BodyMeans(body, literal);
    if nums == None {
      if ParseBody(body).Some? {
        GroupTooLarge(whole, groups, Group(literal, ParseBody(body).value), rest);
      } else {
        FailsWithout(whole);
      }
      return None, read;
    }
    ghost var g := Group(literal, ParseBody(body).value);
    GroupPush(groups, g);
    var tooMany := Exceeds(|results|, |nums.value|);
    if tooMany {
      GroupTooLarge(whole, groups, g, rest);
      return None, read;
    }
    var crossed := CrossProduct(results, literal, nums.value);
    read := groups + [g];
    next := Some(crossed);
  }

  lemma BodyMeans(body: string, literal: string)
    requires IsLiteral(literal)
    ensures ParseBody(body) == None ==> BracketNames(Split(body, ',')) == None
    ensures ParseBody(body).Some? ==>
      GroupFormed(Group(literal, ParseBody(body).value)) && BracketNames(Split(body, ',')) == Fitting(SpansNames(ParseBody(body).value))
  {
    if ParseBody(body).Some? {
      BodySound(body);
    }
  }

  method ExpandPart(whole: string) returns (r: Option<seq<string>>)
    ensures r == ExpandedHost(whole)
  {
    if whole == "" {
      return None;
    }
    var part, results := whole, [""];
    ghost var groups: seq<Group> := [];
    AfterNothing(ParseRest(whole));
    while 0 < |part|
      invariant Reading(whole, part, groups, results)
      decreases |part|
    {
      var open := IndexOf(part, '[');
      if open == |part| {
        PlainRest(part);
        if !IsLiteral(part) {
          FailsWithout(whole);
          return None;
        }
        Finished(whole, groups, part);
        results := AppendTail(results, part);
        return Some(results);
      }
      var p := CutAt(part, open);
      if p == None || !IsLiteral(p.value.literal) {
        NoBracket(whole, part, groups, results);
        return None;
      }
      NextGroup(whole, part, groups, results, p.value);
      r, groups := ReadGroup(p.value.literal, p.value.body, results, whole, groups, ParseRest(p.value.behind));
      if r == None {
        return;
      }
      part, results := p.value.behind, r.value;
    }
    PlainRest("");
    Finished(whole, groups, "");
    NoTail(results);
    return Some(results);
  }

  method CutAt(part: string, open: nat) returns (p: Option<Pieces>)
    requires open == IndexOf(part, '[') < |part|
    ensures p == Cut(part)
  {
    var close := open + IndexOf(part[open..], ']');
    if close == |part| {
      return None;
    }
    return Some(Pieces(part[..open], part[open + 1..close], part[close + 1..]));
  }

  lemma NoTail(names: seq<string>)
    ensures Suffixed(names, "") == names
  {
    assert forall k :: 0 <= k < |names| ==> names[k] + "" == names[k];
  }

  lemma AfterNothing(rest: Option<Host>)
    ensures After([], rest) == rest
  {
    if rest.Some? {
      assert [] + rest.value.groups == rest.value.groups;
    }
  }

  lemma PlainRest(part: string)
    requires IndexOf(part, '[') == |part|
    ensures ParseRest(part) == if IsLiteral(part) then Some(Host([], part)) else None
  {
  }

  lemma Finished(whole: string, groups: seq<Group>, tail: string)
    requires whole != "" && ParseRest(whole) == After(groups, Some(Host([], tail))) && GroupsFormed(groups)
    requires |GroupsNames(groups)| <= CAP
    ensures ExpandedHost(whole) == Some(Suffixed(GroupsNames(groups), tail))
  {
    HostSound(whole);
    assert groups + [] == groups;
  }

  // ---- The list ----

  lemma ScanStops(s: string, i: nat)
    requires i <= |s| && ScanAll(START, s[..i]) == None
    ensures SplitTopLevel(s) == None
  {
    ScanAppend(START, s[..i], s[i..]);
    assert s == s[..i] + s[i..];
  }

  method SplitList(s: string) returns (parts: Option<seq<string>>)
    ensures parts == SplitTopLevel(s)
  {
    var found: seq<string> := [];
    var depth, start := 0, 0;
    for i := 0 to |s|
      invariant 0 <= depth <= 1 && 0 <= start <= i
      invariant ScanAll(START, s[..i]) == Some(Scan(found, s[start..i], depth == 1))
    {
      PrefixGrows(s, i);
      LastApart(s[..i + 1]);
      assert s[start..i + 1] == s[start..i] + [s[i]];
      if s[i] == '[' {
        depth := depth + 1;
        if 1 < depth {
          ScanStops(s, i + 1);
          return None;
        }
      } else if s[i] == ']' {
        depth := depth - 1;
        if depth < 0 {
          ScanStops(s, i + 1);
          return None;
        }
      } else if s[i] == ',' && depth == 0 {
        found := found + [s[start..i]];
        start := i + 1;
        assert s[start..i + 1] == "";
      }
    }
    Whole(s);
    if depth != 0 {
      return None;
    }
    assert s[start..|s|] == s[start..];
    return Some(found + [s[start..]]);
  }

  function Expanded(hosts: seq<Host>): Option<seq<string>>
    requires forall h :: h in hosts ==> HostFormed(h)
  {
    Fitting(Names(hosts))
  }

  function ExpandedParts(parts: seq<string>): Option<seq<string>> {
    if ParseHosts(parts) == None then None
    else
      HostsSound(parts);
      Expanded(ParseHosts(parts).value)
  }

  lemma {:induction false} PartsFail(parts: seq<string>, n: nat)
    requires n <= |parts| && ExpandedParts(parts[..n]) == None
    ensures ExpandedParts(parts) == None
    decreases |parts| - n
  {
    if n < |parts| {
      PrefixGrows(parts, n);
      PartsGrow(parts[..n], parts[n]);
      PartsFail(parts, n + 1);
    } else {
      Whole(parts);
    }
  }

  // What one more host does to the names of a list.
  lemma PartsGrow(parts: seq<string>, part: string)
    ensures ExpandedParts(parts + [part]) ==
      if ExpandedParts(parts).Some? && ExpandedHost(part).Some? then Fitting(ExpandedParts(parts).value + ExpandedHost(part).value)
      else None
  {
    var all := parts + [part];
    assert all[..|parts|] == parts;
    if ParseHosts(all).Some? {
      HostsSound(parts);
      HostsSound(all);
      HostSound(part);
      var hosts, h := ParseHosts(parts).value, ParseHost(part).value;
      assert (hosts + [h])[..|hosts|] == hosts;
    }
  }

  method ExpandParts(parts: seq<string>) returns (r: Option<seq<string>>)
    ensures r == ExpandedParts(parts)
  {
    var out: seq<string> := [];
    for i := 0 to |parts|
      invariant ExpandedParts(parts[..i]) == Some(out)
    {
      PrefixGrows(parts, i);
      PartsGrow(parts[..i], parts[i]);
      r := ExpandPart(parts[i]);
      if r == None {
        PartsFail(parts, i + 1);
        return None;
      }
      if CAP < |out| + |r.value| {
        PartsFail(parts, i + 1);
        return None;
      }
      out := out + r.value;
    }
    Whole(parts);
    return Some(out);
  }

  // The list denotes these names.
  ghost predicate Denotes(text: string, names: seq<string>) {
    exists hosts :: IsListing(text, hosts) && Names(hosts) == names
  }

  ghost predicate IsListing(text: string, hosts: seq<Host>) {
    Formed(hosts) && (forall h :: h in hosts ==> Filled(h)) && Render(hosts) == text
  }

  function NodeList(list: string): Option<seq<string>> {
    var text := Text.Trim(list);
    if NoHosts(text) then Some([])
    else
      match SplitTopLevel(text)
      case None => None
      case Some(parts) => ExpandedParts(parts)
  }

  // Expansion succeeds if and only if, surrounding space aside, the list stands
  // for no hosts at all, or is well formed and denotes no more names than the
  // cap; and it returns exactly the names denoted, in order.
  lemma NodeListIsExact(list: string, names: seq<string>)
    ensures NodeList(list) == Some(names) <==>
      if NoHosts(Text.Trim(list)) then names == [] else Denotes(Text.Trim(list), names) && |names| <= CAP
  {
    var text := Text.Trim(list);
    forall hosts ensures Parse(text) == Some(hosts) <==> IsListing(text, hosts) {
      ParseIsExact(text, hosts);
    }
    if Parse(text).Some? {
      assert IsListing(text, Parse(text).value);
    }
  }

  method ExpandNodeList(list: string) returns (r: Option<seq<string>>)
    ensures r == NodeList(list)
    ensures NoHosts(Text.Trim(list)) ==> r == Some([])
    ensures !NoHosts(Text.Trim(list)) ==>
      forall names :: r == Some(names) <==> Denotes(Text.Trim(list), names) && |names| <= CAP
  {
    forall names ensures NodeList(list) == Some(names) <==>
      if NoHosts(Text.Trim(list)) then names == [] else Denotes(Text.Trim(list), names) && |names| <= CAP
    {
      NodeListIsExact(list, names);
    }
    var text := Text.Trim(list);
    if NoHosts(text) {
      return Some([]);
    }
    var parts := SplitList(text);
    if parts == None {
      return None;
    }
    r := ExpandParts(parts.value);
  }

  // ---- What the numbers in a name are ----

  lemma {:induction false} DigitsMean(n: nat)
    ensures AllDigits(Digits(n)) && DigitsValue(Digits(n)) == n
    ensures 0 < n ==> Digits(n)[0] != '0'
  {
    var s := Digits(n);
    if n < 10 {
      assert s[..0] == "";
    } else {
      DigitsMean(n / 10);
      assert s[..|s| - 1] == Digits(n / 10);
      assert forall c :: c in s ==> c in Digits(n / 10) || c == s[|s| - 1];
    }
  }

  lemma {:induction false} LeadingZeros(k: nat, s: string)
    requires AllDigits(s)
    ensures AllDigits(Zeros(k) + s) && DigitsValue(Zeros(k) + s) == DigitsValue(s)
    decreases |s|
  {
    var t := Zeros(k) + s;
    assert forall c :: c in t ==> c == '0' || c in s;
    if s == "" {
      ZerosMean(k);
      assert t == Zeros(k);
    } else {
      var n := |s| - 1;
      assert forall c :: c in s[..n] ==> c in s;
      LeadingZeros(k, s[..n]);
      assert t[..|t| - 1] == Zeros(k) + s[..n];
    }
  }

  lemma {:induction false} ZerosMean(k: nat)
    ensures AllDigits(Zeros(k)) && DigitsValue(Zeros(k)) == 0
  {
    if k > 0 {
      ZerosMean(k - 1);
      assert Zeros(k)[..k - 1] == Zeros(k - 1);
    }
  }

  // A padded number is that number again when read, is never shorter than the
  // width, and no longer than the width or the number needs.
  lemma PadMeans(width: nat, n: nat)
    ensures AllDigits(Pad(width, n)) && DigitsValue(Pad(width, n)) == n
    ensures |Pad(width, n)| == if width <= |Digits(n)| then |Digits(n)| else width
  {
    DigitsMean(n);
    if |Digits(n)| < width {
      LeadingZeros(width - |Digits(n)|, Digits(n));
    }
  }

  lemma {:induction false} SameDigits(a: string, b: string)
    requires AllDigits(a) && AllDigits(b) && |a| == |b| && DigitsValue(a) == DigitsValue(b)
    ensures a == b
  {
    if a != "" {
      var n := |a| - 1;
      assert a[n] in a && b[n] in b;
      assert forall c :: c in a[..n] ==> c in a;
      assert forall c :: c in b[..n] ==> c in b;
      SameDigits(a[..n], b[..n]);
      LastApart(a);
      LastApart(b);
    }
  }

  lemma {:induction false} ValueFits(s: string)
    requires AllDigits(s) && s != ""
    ensures |Digits(DigitsValue(s))| <= |s|
  {
    var n := |s| - 1;
    assert s[n] in s;
    if n > 0 {
      assert forall c :: c in s[..n] ==> c in s;
      ValueFits(s[..n]);
      assert DigitsValue(s) / 10 == DigitsValue(s[..n]);
    } else {
      assert s[..0] == "";
    }
  }

  // A number written in a list, without a sign, denotes itself as written, with
  // all its leading zeros.
  lemma NumberDenotesItself(text: string)
    requires AllDigits(text) && text != "" && SpanFormed(One(text))
    ensures SpanNames(One(text)) == [text]
  {
    assert text[0] in text;
    ValueFits(text);
    PadMeans(|text|, DigitsValue(text));
    SameDigits(Pad(|text|, DigitsValue(text)), text);
    assert SpanNames(One(text))[0] == text;
  }
}
