// Slurm's compact host lists: what the notation is, what it denotes, and how it
// is parsed. A list is hosts separated by commas; a host is any number of groups
// of a literal and a bracket of numeric spans, and a last literal.
module Hostlist {
  import opened Wrappers

  // ---- Notation ----

  datatype Span = One(text: string) | Range(first: string, last: string)
  datatype Group = Group(literal: string, spans: seq<Span>)
  datatype Host = Host(groups: seq<Group>, tail: string)

  function Join(parts: seq<string>): string
    requires parts != []
  {
    if |parts| == 1 then parts[0] else parts[0] + "," + Join(parts[1..])
  }

  function RenderSpan(s: Span): string {
    match s
    case One(text) => text
    case Range(first, last) => first + "-" + last
  }

  function RenderSpans(spans: seq<Span>): (texts: seq<string>)
    ensures |texts| == |spans|
  {
    if spans == [] then [] else RenderSpans(spans[..|spans| - 1]) + [RenderSpan(spans[|spans| - 1])]
  }

  function RenderGroup(g: Group): string
    requires g.spans != []
  {
    g.literal + "[" + Join(RenderSpans(g.spans)) + "]"
  }

  predicate Filled(h: Host) {
    forall g :: g in h.groups ==> g.spans != []
  }

  function RenderGroups(groups: seq<Group>): string
    requires forall g :: g in groups ==> g.spans != []
  {
    if groups == [] then "" else RenderGroup(groups[0]) + RenderGroups(groups[1..])
  }

  function RenderHost(h: Host): string
    requires Filled(h)
  {
    RenderGroups(h.groups) + h.tail
  }

  function RenderHosts(hosts: seq<Host>): (texts: seq<string>)
    requires forall h :: h in hosts ==> Filled(h)
    ensures |texts| == |hosts|
  {
    if hosts == [] then [] else RenderHosts(hosts[..|hosts| - 1]) + [RenderHost(hosts[|hosts| - 1])]
  }

  function Render(hosts: seq<Host>): string
    requires hosts != [] && forall h :: h in hosts ==> Filled(h)
  {
    Join(RenderHosts(hosts))
  }

  // ---- Numbers ----

  const MAX_INT64: int := 0x7fff_ffff_ffff_ffff

  predicate IsDigit(c: char) {
    '0' <= c <= '9'
  }

  predicate AllDigits(s: string) {
    forall c :: c in s ==> IsDigit(c)
  }

  function DigitsValue(s: string): nat
    requires AllDigits(s)
  {
    if s == "" then 0
    else
      assert s[|s| - 1] in s;
      10 * DigitsValue(s[..|s| - 1]) + (s[|s| - 1] as int - '0' as int)
  }

  function Unsigned(s: string): string {
    if s != "" && (s[0] == '+' || s[0] == '-') then s[1..] else s
  }

  predicate IsNumber(s: string) {
    Unsigned(s) != "" && AllDigits(Unsigned(s))
  }

  function NumberValue(s: string): int
    requires IsNumber(s)
  {
    if s[0] == '-' then 0 - DigitsValue(Unsigned(s)) else DigitsValue(Unsigned(s))
  }

  // What the standard library's conversion of a 64-bit integer accepts.
  function Atoi(s: string): Option<int> {
    if IsNumber(s) && -MAX_INT64 - 1 <= NumberValue(s) <= MAX_INT64 then Some(NumberValue(s)) else None
  }

  function Digits(n: nat): (s: string)
    ensures s != ""
  {
    var d := ('0' as int + n % 10) as char;
    if n < 10 then [d] else Digits(n / 10) + [d]
  }

  function Zeros(n: nat): string {
    seq(n, _ => '0')
  }

  // A number in decimal, zero-padded to the width.
  function Pad(width: nat, n: nat): string {
    if width <= |Digits(n)| then Digits(n) else Zeros(width - |Digits(n)|) + Digits(n)
  }

  // ---- What is well formed ----

  predicate LiteralChar(c: char) {
    'A' <= c <= 'Z' || 'a' <= c <= 'z' || '0' <= c <= '9' || c == '.' || c == '_' || c == '-'
  }

  predicate IsLiteral(s: string) {
    forall c :: c in s ==> LiteralChar(c)
  }

  function Low(s: Span): string {
    match s
    case One(text) => text
    case Range(first, _) => first
  }

  function High(s: Span): string {
    match s
    case One(text) => text
    case Range(_, last) => last
  }

  // The lower bound never carries a minus sign. An upper bound may, which can
  // only be a negative zero.
  predicate SpanFormed(s: Span) {
    && IsNumber(Low(s)) && '-' !in Low(s) && NumberValue(Low(s)) <= MAX_INT64
    && IsNumber(High(s)) && NumberValue(High(s)) <= MAX_INT64
    && NumberValue(Low(s)) <= NumberValue(High(s))
  }

  predicate GroupFormed(g: Group) {
    IsLiteral(g.literal) && g.spans != [] && forall s :: s in g.spans ==> SpanFormed(s)
  }

  predicate GroupsFormed(groups: seq<Group>) {
    forall g :: g in groups ==> GroupFormed(g)
  }

  predicate HostFormed(h: Host) {
    GroupsFormed(h.groups) && IsLiteral(h.tail) && (h.groups != [] || h.tail != "")
  }

  predicate Formed(hosts: seq<Host>) {
    hosts != [] && forall h :: h in hosts ==> HostFormed(h)
  }

  // ---- What it denotes ----

  lemma LowIsNatural(s: Span)
    requires SpanFormed(s)
    ensures 0 <= NumberValue(Low(s))
  {
    assert Low(s)[0] in Low(s);
  }

  function SpanNames(s: Span): (names: seq<string>)
    requires SpanFormed(s)
    ensures names != []
  {
    LowIsNatural(s);
    Numbered(|Low(s)|, NumberValue(Low(s)), NumberValue(High(s)) - NumberValue(Low(s)) + 1)
  }

  function Numbered(width: nat, from: nat, n: nat): seq<string> {
    seq(n, k requires 0 <= k < n => Pad(width, from + k))
  }

  function SpansNames(spans: seq<Span>): (names: seq<string>)
    requires forall s :: s in spans ==> SpanFormed(s)
    ensures spans != [] ==> names != []
  {
    if spans == [] then [] else SpansNames(spans[..|spans| - 1]) + SpanNames(spans[|spans| - 1])
  }

  // One name from each side, the right one varying fastest.
  function Prefixed(prefix: string, names: seq<string>): seq<string> {
    seq(|names|, k requires 0 <= k < |names| => prefix + names[k])
  }

  function Cross(left: seq<string>, literal: string, right: seq<string>): seq<string> {
    if left == [] then [] else Cross(left[..|left| - 1], literal, right) + Prefixed(left[|left| - 1] + literal, right)
  }

  function GroupsNames(groups: seq<Group>): seq<string>
    requires GroupsFormed(groups)
  {
    if groups == [] then [""]
    else
      var last := groups[|groups| - 1];
      assert GroupFormed(last);
      Cross(GroupsNames(groups[..|groups| - 1]), last.literal, SpansNames(last.spans))
  }

  function Suffixed(names: seq<string>, suffix: string): seq<string> {
    seq(|names|, k requires 0 <= k < |names| => names[k] + suffix)
  }

  function HostNames(h: Host): seq<string>
    requires HostFormed(h)
  {
    Suffixed(GroupsNames(h.groups), h.tail)
  }

  function Names(hosts: seq<Host>): seq<string>
    requires forall h :: h in hosts ==> HostFormed(h)
  {
    if hosts == [] then [] else Names(hosts[..|hosts| - 1]) + HostNames(hosts[|hosts| - 1])
  }

  // ---- Parsing ----

  // The first position of c, or the length.
  function IndexOf(s: string, c: char): (i: nat)
    ensures i <= |s| && (forall k :: 0 <= k < i ==> s[k] != c)
    ensures i < |s| ==> s[i] == c
  {
    if s == "" || s[0] == c then 0 else 1 + IndexOf(s[1..], c)
  }

  function Split(s: string, c: char): (parts: seq<string>)
    ensures parts != []
    decreases |s|
  {
    var i := IndexOf(s, c);
    if i == |s| then [s] else [s[..i]] + Split(s[i + 1..], c)
  }

  // The bounds and the width of a span, as its text says.
  datatype Bounds = Bounds(lo: int, hi: int, width: nat)

  function ParseSpan(text: string): Option<Bounds> {
    var i := IndexOf(text, '-');
    if i < |text| then
      var a, b := text[..i], text[i + 1..];
      if a == "" || b == "" then None
      else
        match (Atoi(a), Atoi(b))
        case (Some(l), Some(h)) => if h < l || l < 0 then None else Some(Bounds(l, h, |a|))
        case _ => None
    else if text == "" then None
    else
      match Atoi(text)
      case Some(n) => if n < 0 then None else Some(Bounds(n, n, |text|))
      case None => None
  }

  function SpanOf(text: string): Span {
    var i := IndexOf(text, '-');
    if i < |text| then Range(text[..i], text[i + 1..]) else One(text)
  }

  function ParseSpans(texts: seq<string>): Option<seq<Span>> {
    if texts == [] then Some([])
    else
      match ParseSpans(texts[..|texts| - 1])
      case None => None
      case Some(spans) =>
        if ParseSpan(texts[|texts| - 1]) == None then None else Some(spans + [SpanOf(texts[|texts| - 1])])
  }

  // What stands between two brackets.
  function ParseBody(body: string): Option<seq<Span>> {
    ParseSpans(Split(body, ','))
  }

  function Push(g: Group, rest: Host): Host {
    Host([g] + rest.groups, rest.tail)
  }

  function Grow(literal: string, spans: Option<seq<Span>>, rest: Option<Host>): Option<Host> {
    if IsLiteral(literal) && spans.Some? && rest.Some? then Some(Push(Group(literal, spans.value), rest.value)) else None
  }

  // What stands before, inside and behind the first bracket.
  datatype Pieces = Pieces(literal: string, body: string, behind: string)

  function Cut(part: string): (r: Option<Pieces>)
    ensures r.Some? ==> |r.value.behind| < |part|
  {
    var open := IndexOf(part, '[');
    var close := open + IndexOf(part[open..], ']');
    if close == |part| then None else Some(Pieces(part[..open], part[open + 1..close], part[close + 1..]))
  }

  function ParseRest(part: string): Option<Host>
    decreases |part|
  {
    if IndexOf(part, '[') == |part| then
      if IsLiteral(part) then Some(Host([], part)) else None
    else
      match Cut(part)
      case None => None
      case Some(p) => Grow(p.literal, ParseBody(p.body), ParseRest(p.behind))
  }

  function ParseHost(part: string): Option<Host> {
    if part == "" then None else ParseRest(part)
  }

  function ParseHosts(parts: seq<string>): Option<seq<Host>> {
    if parts == [] then Some([])
    else
      match (ParseHosts(parts[..|parts| - 1]), ParseHost(parts[|parts| - 1]))
      case (Some(hosts), Some(h)) => Some(hosts + [h])
      case _ => None
  }

  // Splitting at the commas outside brackets: what was split off, what follows
  // the last such comma, and whether a bracket is open.
  datatype Scan = Scan(parts: seq<string>, current: string, open: bool)

  function Step(st: Scan, c: char): Option<Scan> {
    if c == '[' && st.open then None
    else if c == ']' && !st.open then None
    else if c == ',' && !st.open then Some(Scan(st.parts + [st.current], "", false))
    else Some(Scan(st.parts, st.current + [c], if c == '[' then true else if c == ']' then false else st.open))
  }

  function ScanAll(st: Scan, s: string): Option<Scan> {
    if s == "" then Some(st)
    else
      match ScanAll(st, s[..|s| - 1])
      case None => None
      case Some(before) => Step(before, s[|s| - 1])
  }

  const START := Scan([], "", false)

  function SplitTopLevel(s: string): Option<seq<string>> {
    match ScanAll(START, s)
    case None => None
    case Some(st) => if st.open then None else Some(st.parts + [st.current])
  }

  // ---- Expansion ----

  const CAP: nat := 100000

  predicate NoHosts(text: string) {
    text == "" || text == "(null)" || text == "None assigned"
  }

  function Parse(text: string): Option<seq<Host>> {
    match SplitTopLevel(text)
    case None => None
    case Some(parts) => ParseHosts(parts)
  }
}
