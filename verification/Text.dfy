/** Go string operations the model needs: strings.TrimSpace, strings.Split on "&&", strings.ToLower (ASCII). */
module Text {

  datatype Option<+T> = None | Some(value: T)

  /** unicode.IsSpace: what strings.TrimSpace removes. */
  predicate IsSpace(c: char) {
    var n := c as int;
    9 <= n <= 13 || n == 0x20 || n == 0x85 || n == 0xA0 || n == 0x1680
    || 0x2000 <= n <= 0x200A || n == 0x2028 || n == 0x2029 || n == 0x202F || n == 0x205F || n == 0x3000
  }

  function TrimLeft(s: string): string {
    if s != "" && IsSpace(s[0]) then TrimLeft(s[1..]) else s
  }

  function TrimRight(s: string): string {
    if s != "" && IsSpace(s[|s| - 1]) then TrimRight(s[..|s| - 1]) else s
  }

  function TrimSpace(s: string): string {
    TrimRight(TrimLeft(s))
  }

  /** No whitespace at either end, and not empty. */
  predicate Tight(s: string) {
    s != "" && !IsSpace(s[0]) && !IsSpace(s[|s| - 1])
  }

  predicate Blank(s: string) {
    forall i :: 0 <= i < |s| ==> IsSpace(s[i])
  }

  lemma {:induction false} TrimLeftBlank(pre: string, s: string)
    requires Blank(pre) && s != "" && !IsSpace(s[0])
    ensures TrimLeft(pre + s) == s
  {
    if pre == "" {
      assert pre + s == s;
    } else {
      assert (pre + s)[1..] == pre[1..] + s;
      TrimLeftBlank(pre[1..], s);
    }
  }

  lemma {:induction false} TrimRightBlank(s: string, post: string)
    requires Blank(post) && s != "" && !IsSpace(s[|s| - 1])
    ensures TrimRight(s + post) == s
  {
    if post == "" {
      assert s + post == s;
    } else {
      assert (s + post)[..|s + post| - 1] == s + post[..|post| - 1];
      TrimRightBlank(s, post[..|post| - 1]);
    }
  }

  /** Trimming removes exactly the blanks around a tight text. */
  lemma TrimSpaceBlank(pre: string, s: string, post: string)
    requires Blank(pre) && Blank(post) && Tight(s)
    ensures TrimSpace(pre + s + post) == s
  {
    assert pre + s + post == pre + (s + post);
    TrimLeftBlank(pre, s + post);
    TrimRightBlank(s, post);
  }

  /** strings.Split(s, "&&"): leftmost, non-overlapping separators. */
  function SplitAmp(s: string): (parts: seq<string>)
    ensures parts != []
  {
    if |s| < 2 then [s]
    else if s[0] == '&' && s[1] == '&' then [""] + SplitAmp(s[2..])
    else
      var rest := SplitAmp(s[1..]);
      [[s[0]] + rest[0]] + rest[1..]
  }

  predicate NoAmp(s: string) {
    forall i :: 0 <= i < |s| - 1 ==> !(s[i] == '&' && s[i + 1] == '&')
  }

  lemma {:induction false} SplitNoAmp(s: string)
    requires NoAmp(s)
    ensures SplitAmp(s) == [s]
  {
    if |s| >= 2 {
      forall i | 0 <= i < |s[1..]| - 1 ensures !(s[1..][i] == '&' && s[1..][i + 1] == '&') {
        assert s[1..][i] == s[i + 1] && s[1..][i + 1] == s[i + 2];
      }
      SplitNoAmp(s[1..]);
      assert [s[0]] + s[1..] == s;
    }
  }

  lemma {:induction false} SplitAtAmp(p: string, rest: string)
    requires NoAmp(p) && (p != "" ==> p[|p| - 1] != '&')
    ensures SplitAmp(p + "&&" + rest) == [p] + SplitAmp(rest)
  {
    var s := p + "&&" + rest;
    if p == "" {
      assert s[2..] == rest;
    } else {
      assert s[1..] == p[1..] + "&&" + rest;
      assert !(s[0] == '&' && s[1] == '&') by {
        if |p| >= 2 { assert s[0] == p[0] && s[1] == p[1]; }
      }
      forall i | 0 <= i < |p[1..]| - 1 ensures !(p[1..][i] == '&' && p[1..][i + 1] == '&') {
        assert p[1..][i] == p[i + 1] && p[1..][i + 1] == p[i + 2];
      }
      SplitAtAmp(p[1..], rest);
      assert [s[0]] + p[1..] == p;
    }
  }

  /** Texts joined by " && ". */
  function JoinAmp(ts: seq<string>): string
    requires ts != []
  {
    if |ts| == 1 then ts[0] else ts[0] + " && " + JoinAmp(ts[1..])
  }

  /** A text that survives joining: tight, without "&&" inside and without '&' at its end. */
  predicate Joinable(t: string) {
    Tight(t) && NoAmp(t) && t[|t| - 1] != '&'
  }

  /** The text with only blanks around it. */
  ghost predicate Padded(part: string, t: string) {
    exists pre: string, post: string :: Blank(pre) && Blank(post) && part == pre + t + post
  }

  lemma PaddedIntro(pre: string, t: string, post: string)
    requires Blank(pre) && Blank(post)
    ensures Padded(pre + t + post, t)
  {
  }

  lemma PaddedNoAmp(pre: string, t: string, post: string)
    requires Blank(pre) && Blank(post) && NoAmp(t)
    ensures NoAmp(pre + t + post)
  {
    var s := pre + t + post;
    forall i | 0 <= i < |s| - 1 ensures !(s[i] == '&' && s[i + 1] == '&') {
      if i < |pre| {
        assert IsSpace(s[i]);
      } else if i + 1 < |pre| + |t| {
        assert s[i] == t[i - |pre|] && s[i + 1] == t[i + 1 - |pre|];
      } else {
        assert IsSpace(s[i + 1]);
      }
    }
  }

  /** Splitting a joined text gives the texts back, up to blanks around each. */
  lemma {:induction false} SplitJoined(pre: string, ts: seq<string>)
    requires ts != [] && Blank(pre)
    requires forall i :: 0 <= i < |ts| ==> Joinable(ts[i])
    ensures |SplitAmp(pre + JoinAmp(ts))| == |ts|
    ensures forall i :: 0 <= i < |ts| ==> Padded(SplitAmp(pre + JoinAmp(ts))[i], ts[i])
    decreases |ts|
  {
    var t := ts[0];
    if |ts| == 1 {
      PaddedNoAmp(pre, t, "");
      assert pre + t + "" == pre + t;
      SplitNoAmp(pre + t);
      PaddedIntro(pre, t, "");
    } else {
      var p := pre + t + " ";
      PaddedNoAmp(pre, t, " ");
      var rest := " " + JoinAmp(ts[1..]);
      assert pre + JoinAmp(ts) == p + "&&" + rest;
      SplitAtAmp(p, rest);
      SplitJoined(" ", ts[1..]);
      PaddedIntro(pre, t, " ");
      var parts := SplitAmp(p + "&&" + rest);
      assert parts == [p] + SplitAmp(rest);
      forall i | 0 < i < |ts| ensures Padded(parts[i], ts[i]) {
        assert ts[i] == ts[1..][i - 1];
      }
    }
  }

  lemma {:induction false} JoinedTight(ts: seq<string>)
    requires ts != [] && forall i :: 0 <= i < |ts| ==> Joinable(ts[i])
    ensures Tight(JoinAmp(ts)) && JoinAmp(ts)[0] == ts[0][0] && |JoinAmp(ts)| >= |ts[0]|
  {
    if |ts| > 1 { JoinedTight(ts[1..]); }
  }

  function LowerChar(c: char): char {
    if 'A' <= c <= 'Z' then (c as int + 32) as char else c
  }

  /** strings.ToLower on ASCII letters; other characters are kept. */
  function ToLower(s: string): (r: string)
    ensures |r| == |s|
    ensures forall i :: 0 <= i < |s| ==> r[i] == LowerChar(s[i])
  {
    seq(|s|, i requires 0 <= i < |s| => LowerChar(s[i]))
  }

  function UpperChar(c: char): char {
    if 'a' <= c <= 'z' then (c as int - 32) as char else c
  }

  /** strings.ToUpper on ASCII letters. */
  function ToUpper(s: string): string {
    seq(|s|, i requires 0 <= i < |s| => UpperChar(s[i]))
  }

  /** strings.EqualFold on ASCII letters. */
  predicate EqualFold(s: string, t: string) { ToLower(s) == ToLower(t) }

  /** strconv.Itoa of a natural number. */
  function Itoa(n: nat): string {
    if n < 10 then [(48 + n) as char] else Itoa(n / 10) + [(48 + n % 10) as char]
  }

  predicate HasPrefix(s: string, p: string) {
    |p| <= |s| && s[..|p|] == p
  }

  /** strings.Contains. */
  predicate Contains(s: string, sub: string) {
    |sub| <= |s| && (HasPrefix(s, sub) || (s != "" && Contains(s[1..], sub)))
  }

  /** The canonical text of a UUID. */
  predicate IsUuidText(s: string) {
    |s| == 36 && forall i :: 0 <= i < 36 ==>
      (if i == 8 || i == 13 || i == 18 || i == 23 then s[i] == '-'
       else '0' <= s[i] <= '9' || 'a' <= s[i] <= 'f')
  }

  type Uuid = s: string | IsUuidText(s) witness "00000000-0000-0000-0000-000000000000"

  /** strings.Index: the first position of sub in s, or -1. */
  function Index(s: string, sub: string): (i: int)
    ensures -1 <= i <= |s|
  {
    if HasPrefix(s, sub) then 0
    else if s == "" then -1
    else
      var i := Index(s[1..], sub);
      if i < 0 then -1 else i + 1
  }

  /** Go's < on strings: by code point, a proper prefix first. */
  predicate Less(s: string, t: string) {
    t != "" && (s == "" || s[0] < t[0] || (s[0] == t[0] && Less(s[1..], t[1..])))
  }

  lemma {:induction false} LessIsStrictTotal(s: string, t: string)
    ensures !(Less(s, t) && Less(t, s))
    ensures Less(s, t) || Less(t, s) || s == t
  {
    if s != "" && t != "" && s[0] == t[0] {
      LessIsStrictTotal(s[1..], t[1..]);
      assert s == [s[0]] + s[1..] && t == [t[0]] + t[1..];
    }
  }

  lemma {:induction false} LessSplits(s: string, t: string, u: string)
    ensures Less(s, u) ==> Less(s, t) || Less(t, u)
  {
    if s != "" && t != "" && u != "" && s[0] == t[0] == u[0] { LessSplits(s[1..], t[1..], u[1..]); }
  }
}
