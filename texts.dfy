/** Python's str helpers over ASCII text: strip(), lower(), str(int) and
 *  ", ".join(...). Non-ASCII whitespace and case mappings are not modelled. */
module Texts {
  import opened Seqs

  /** The ASCII characters for which Python's str.isspace() holds. */
  predicate IsSpace(c: char)
  {
    c == ' ' || '\t' <= c <= '\r' || '\U{1c}' <= c <= '\U{1f}'
  }

  predicate IsAsciiLetter(c: char)
  {
    'a' <= c <= 'z' || 'A' <= c <= 'Z'
  }

  /** Characters matched by the regular-expression class `\w`. */
  predicate IsWordChar(c: char)
  {
    IsAsciiLetter(c) || IsDigit(c) || c == '_'
  }

  /** str.lstrip(): drops leading whitespace. */
  function StripStart(s: string): (r: string)
    ensures |r| <= |s| && r == s[|s| - |r|..]
    ensures |r| > 0 ==> !IsSpace(r[0])
    ensures forall i :: 0 <= i < |s| - |r| ==> IsSpace(s[i])
  {
    if |s| > 0 && IsSpace(s[0]) then StripStart(s[1..]) else s
  }

  /** str.rstrip(): drops trailing whitespace. */
  function StripEnd(s: string): (r: string)
    ensures |r| <= |s| && r == s[..|r|]
    ensures |r| > 0 ==> !IsSpace(r[|r| - 1])
    ensures forall i :: |r| <= i < |s| ==> IsSpace(s[i])
  {
    if |s| > 0 && IsSpace(s[|s| - 1]) then StripEnd(s[..|s| - 1]) else s
  }

  /** str.strip(). */
  function Strip(s: string): string
  {
    StripEnd(StripStart(s))
  }

  /** What strip() returns is a slice of its input with no whitespace at
   *  either end, and everything cut away is whitespace. */
  lemma {:induction false} StripSlice(s: string)
    ensures exists lo, hi ::
      (0 <= lo <= hi <= |s| && Strip(s) == s[lo..hi]
       && (forall i :: 0 <= i < lo ==> IsSpace(s[i])) && (forall i :: hi <= i < |s| ==> IsSpace(s[i])))
    ensures |Strip(s)| > 0 ==> !IsSpace(Strip(s)[0]) && !IsSpace(Strip(s)[|Strip(s)| - 1])
  {
    var t := StripStart(s);
    var u := StripEnd(t);
    var lo := |s| - |t|;
    var hi := lo + |u|;
    assert Strip(s) == s[lo..hi] by {
      assert t == s[lo..] && u == t[..|u|];
    }
    assert forall i :: hi <= i < |s| ==> IsSpace(s[i]) by {
      forall i | hi <= i < |s|
        ensures IsSpace(s[i])
      {
        assert s[i] == t[i - lo];
      }
    }
    assert forall i :: 0 <= i < lo ==> IsSpace(s[i]);
    assert |u| > 0 ==> !IsSpace(u[0]) by {
      if |u| > 0 {
        assert u[0] == t[0];
      }
    }
  }

  /** Text that already has no whitespace at either end is left alone. */
  lemma {:induction false} StripTrimmed(s: string)
    requires |s| > 0 ==> !IsSpace(s[0]) && !IsSpace(s[|s| - 1])
    ensures Strip(s) == s
  {
  }

  /** Stripping twice is stripping once. */
  lemma {:induction false} StripIdempotent(s: string)
    ensures Strip(Strip(s)) == Strip(s)
  {
    StripSlice(s);
    StripTrimmed(Strip(s));
  }

  /** Whitespace around a text does not change what strip() returns. */
  lemma {:induction false} StripPadded(s: string, pre: string, post: string)
    requires forall i :: 0 <= i < |pre| ==> IsSpace(pre[i])
    requires forall i :: 0 <= i < |post| ==> IsSpace(post[i])
    ensures Strip(pre + s + post) == Strip(s)
  {
    assert pre + s + post == pre + (s + post);
    StripStartPadded(s + post, pre);
    assert StripStart(pre + s + post) == StripStart(s + post);
    StripStartKeepsTail(s, post);
  }

  lemma {:induction false} StripStartPadded(s: string, pre: string)
    requires forall i :: 0 <= i < |pre| ==> IsSpace(pre[i])
    ensures StripStart(pre + s) == StripStart(s)
    decreases |pre|
  {
    if |pre| > 0 {
      assert (pre + s)[1..] == pre[1..] + s;
      StripStartPadded(s, pre[1..]);
    } else {
      assert pre + s == s;
    }
  }

  lemma {:induction false} StripEndPadded(s: string, post: string)
    requires forall i :: 0 <= i < |post| ==> IsSpace(post[i])
    ensures StripEnd(s + post) == StripEnd(s)
    decreases |post|
  {
    if |post| > 0 {
      assert (s + post)[..|s + post| - 1] == s + post[..|post| - 1];
      StripEndPadded(s, post[..|post| - 1]);
    } else {
      assert s + post == s;
    }
  }

  /** Trailing text does not change where the leading whitespace ends,
   *  as long as something non-blank precedes it or it is all blank. */
  lemma {:induction false} StripStartKeepsTail(s: string, post: string)
    requires forall i :: 0 <= i < |post| ==> IsSpace(post[i])
    ensures StripEnd(StripStart(s + post)) == StripEnd(StripStart(s))
    decreases |s|
  {
    if |s| > 0 && IsSpace(s[0]) {
      assert (s + post)[1..] == s[1..] + post;
      StripStartKeepsTail(s[1..], post);
    } else if |s| > 0 {
      StripEndPadded(s, post);
    } else {
      assert s + post == post;
      AllBlankStrips(post);
    }
  }

  lemma {:induction false} AllBlankStrips(s: string)
    requires forall i :: 0 <= i < |s| ==> IsSpace(s[i])
    ensures StripStart(s) == []
    decreases |s|
  {
    if |s| > 0 {
      AllBlankStrips(s[1..]);
    }
  }

  function LowerChar(c: char): (r: char)
    ensures IsAsciiLetter(c) <==> IsAsciiLetter(r)
    ensures IsDigit(c) <==> IsDigit(r)
    ensures IsSpace(c) <==> IsSpace(r)
  {
    if 'A' <= c <= 'Z' then (c as int + 32) as char else c
  }

  /** str.lower() on ASCII text. */
  function Lower(s: string): (r: string)
    ensures |r| == |s|
  {
    seq(|s|, i requires 0 <= i < |s| => LowerChar(s[i]))
  }

  /** Text equal to another ignoring (ASCII) case. */
  predicate FoldEq(a: string, b: string)
  {
    Lower(a) == Lower(b)
  }

  /** Lower-casing twice is lower-casing once. */
  lemma {:induction false} LowerIdempotent(s: string)
    ensures Lower(Lower(s)) == Lower(s)
  {
  }

  /** str(i) for a Python int. */
  function IntToString(i: int): (r: string)
    ensures |r| > 0
    ensures i >= 0 ==> r == NatToString(i)
    ensures i < 0 ==> r == "-" + NatToString(-i)
  {
    if i < 0 then "-" + NatToString(-i) else NatToString(i)
  }

  /** sep.join(parts). */
  function Join(parts: seq<string>, sep: string): (r: string)
    ensures |parts| == 1 ==> r == parts[0]
    ensures |parts| == 0 ==> r == ""
  {
    if |parts| == 0 then ""
    else if |parts| == 1 then parts[0]
    else parts[0] + sep + Join(parts[1..], sep)
  }
}
