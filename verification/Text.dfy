// The few string operations the parsers rely on.
module Text {

  // Unicode white space.
  predicate IsSpace(c: char) {
    || '\t' <= c <= '\r' || c == ' ' || c == '\U{85}' || c == '\U{a0}' || c == '\U{1680}'
    || '\U{2000}' <= c <= '\U{200a}' || c == '\U{2028}' || c == '\U{2029}' || c == '\U{202f}'
    || c == '\U{205f}' || c == '\U{3000}'
  }

  function TrimLeft(s: string): string {
    if s != [] && IsSpace(s[0]) then TrimLeft(s[1..]) else s
  }

  function TrimRight(s: string): string {
    if s != [] && IsSpace(s[|s| - 1]) then TrimRight(s[..|s| - 1]) else s
  }

  function Trim(s: string): string {
    TrimRight(TrimLeft(s))
  }

  predicate Trimmed(s: string) {
    s != [] ==> !IsSpace(s[0]) && !IsSpace(s[|s| - 1])
  }

  lemma {:induction false} TrimLeftIsTrimmed(s: string)
    ensures TrimLeft(s) != [] ==> !IsSpace(TrimLeft(s)[0])
  {
    if s != [] && IsSpace(s[0]) {
      TrimLeftIsTrimmed(s[1..]);
    }
  }

  lemma {:induction false} TrimRightIsTrimmed(s: string)
    requires s != [] ==> !IsSpace(s[0])
    ensures Trimmed(TrimRight(s))
  {
    if s != [] && IsSpace(s[|s| - 1]) {
      TrimRightIsTrimmed(s[..|s| - 1]);
    }
  }

  // Trimming trims, and leaves what is trimmed as it is.
  lemma TrimIsTrimmed(s: string)
    ensures Trimmed(Trim(s))
    ensures Trimmed(s) ==> Trim(s) == s
  {
    TrimLeftIsTrimmed(s);
    TrimRightIsTrimmed(TrimLeft(s));
  }

  // The characters that lower to an ASCII letter; all others stay out of it.
  function Lower(c: char): char {
    if 'A' <= c <= 'Z' then ((c as int - 'A' as int) + 'a' as int) as char
    else if c == '\U{130}' then 'i'
    else if c == '\U{212a}' then 'k'
    else c
  }

  function ToLower(s: string): string {
    seq(|s|, i requires 0 <= i < |s| => Lower(s[i]))
  }

  // Capitals become small letters, and nothing else of ASCII changes. Two letters
  // from elsewhere become ASCII letters too, and no others do.
  lemma LowerMeans(s: string)
    ensures |ToLower(s)| == |s|
    ensures forall i :: 0 <= i < |s| ==>
      && ('A' <= s[i] <= 'Z' ==> ToLower(s)[i] as int == s[i] as int + 32)
      && (s[i] < 'A' || 'Z' < s[i] < '\U{80}' ==> ToLower(s)[i] == s[i])
      && ('\U{80}' <= s[i] && ToLower(s)[i] < '\U{80}' ==> (s[i], ToLower(s)[i]) in [('\U{130}', 'i'), ('\U{212a}', 'k')])
  {
    var exceptions := [('\U{130}', 'i'), ('\U{212a}', 'k')];
    assert exceptions[0] in exceptions && exceptions[1] in exceptions;
  }

  predicate AllSpace(s: string) {
    forall c :: c in s ==> IsSpace(c)
  }

  lemma {:induction false} TrimLeftDrops(s: string) returns (front: string)
    ensures AllSpace(front) && s == front + TrimLeft(s)
  {
    front := "";
    if s != [] && IsSpace(s[0]) {
      var rest := TrimLeftDrops(s[1..]);
      front := [s[0]] + rest;
      assert s == [s[0]] + s[1..];
    }
  }

  lemma {:induction false} TrimRightDrops(s: string) returns (back: string)
    ensures AllSpace(back) && s == TrimRight(s) + back
  {
    back := "";
    if s != [] && IsSpace(s[|s| - 1]) {
      var rest := TrimRightDrops(s[..|s| - 1]);
      back := rest + [s[|s| - 1]];
      assert s == s[..|s| - 1] + [s[|s| - 1]];
    }
  }

  predicate Blank(c: char) {
    9 <= c as int <= 13 || c as int == 32
  }

  // Trimming takes nothing but space away, at the two ends, and leaves none there.
  // Of ASCII, space is the blank and what lies from the tab to the carriage return.
  lemma TrimDropsSpace(s: string) returns (front: string, back: string)
    ensures AllSpace(front) && AllSpace(back) && s == front + Trim(s) + back
    ensures forall c :: c in front + back && c < '\U{80}' ==> Blank(c)
    ensures Trim(s) != "" ==> !Blank(Trim(s)[0]) && !Blank(Trim(s)[|Trim(s)| - 1])
  {
    front := TrimLeftDrops(s);
    back := TrimRightDrops(TrimLeft(s));
    TrimIsTrimmed(s);
  }
}
