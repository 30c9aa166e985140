/** Cleaning the extractor's reply before it is parsed as JSON
    (googleCalendar.js:86): every "```json" is removed, then every "```",
    then surrounding white space is trimmed. */
module Fences {

  const JsonFence: string := "```json"
  const Fence: string := "```"

  /** `s.replace(/pat/g, '')` for a literal, non-empty pattern: matches are
      found left to right and never overlap. */
  function RemoveAll(s: string, pat: string): (r: string)
    requires pat != []
    ensures |r| <= |s|
    decreases |s|
  {
    if |s| == 0 then []
    else if pat <= s then RemoveAll(s[|pat|..], pat)
    else [s[0]] + RemoveAll(s[1..], pat)
  }

  /** The characters `String.prototype.trim` removes: ECMAScript WhiteSpace
      (tab, vertical tab, form feed, BOM and every Zs space) and
      LineTerminator. */
  predicate IsSpace(c: char)
  {
    c == '\t' || c == '\n' || c == '\U{B}' || c == '\U{C}' || c == '\r' || c == ' '
    || c == '\U{A0}' || c == '\U{1680}' || ('\U{2000}' <= c <= '\U{200A}')
    || c == '\U{2028}' || c == '\U{2029}' || c == '\U{202F}' || c == '\U{205F}'
    || c == '\U{3000}' || c == '\U{FEFF}'
  }

  /** Drops leading white space and nothing else: the result is a suffix of
      `s`, everything before it is white space, and it does not start with
      white space. */
  function TrimStart(s: string): (r: string)
    ensures |r| <= |s| && r == s[|s| - |r|..]
    ensures forall i :: 0 <= i < |s| - |r| ==> IsSpace(s[i])
    ensures r == [] || !IsSpace(r[0])
  {
    if |s| > 0 && IsSpace(s[0]) then
      var r := TrimStart(s[1..]);
      assert s[1..][|s| - 1 - |r|..] == s[|s| - |r|..];
      assert forall i :: 1 <= i < |s| - |r| ==> s[i] == s[1..][i - 1];
      r
    else s
  }

  /** Drops trailing white space and nothing else: the result is a prefix of
      `s`, everything after it is white space, and it does not end with
      white space. */
  function TrimEnd(s: string): (r: string)
    ensures |r| <= |s| && r == s[..|r|]
    ensures forall i :: |r| <= i < |s| ==> IsSpace(s[i])
    ensures r == [] || !IsSpace(r[|r| - 1])
  {
    if |s| > 0 && IsSpace(s[|s| - 1]) then
      var r := TrimEnd(s[..|s| - 1]);
      assert s[..|s| - 1][..|r|] == s[..|r|];
      assert forall i :: |r| <= i < |s| - 1 ==> s[i] == s[..|s| - 1][i];
      r
    else s
  }

  /** `s.trim()`: a prefix of what `TrimStart` leaves, with white space at
      neither end. */
  function Trim(s: string): (r: string)
    ensures |r| <= |s| && r <= TrimStart(s)
    ensures forall i :: |r| <= i < |TrimStart(s)| ==> IsSpace(TrimStart(s)[i])
    ensures r == [] || (!IsSpace(r[0]) && !IsSpace(r[|r| - 1]))
  {
    assert TrimEnd(TrimStart(s)) == [] || TrimEnd(TrimStart(s))[0] == TrimStart(s)[0];
    TrimEnd(TrimStart(s))
  }

  /** The string handed to `JSON.parse`: never longer than the reply, and
      free of white space at either end. */
  function StripFences(reply: string): (r: string)
    ensures |r| <= |reply|
    ensures r == [] || (!IsSpace(r[0]) && !IsSpace(r[|r| - 1]))
  {
    Trim(RemoveAll(RemoveAll(reply, JsonFence), Fence))
  }

  predicate FenceAt(s: string, i: int)
  {
    0 <= i && i + 3 <= |s| && s[i] == '`' && s[i + 1] == '`' && s[i + 2] == '`'
  }

  /** `s` contains "```" somewhere. */
  predicate HasFence(s: string)
  {
    exists i :: 0 <= i < |s| && FenceAt(s, i)
  }

  /** Starting with "```" is having a fence at position 0. */
  lemma FencePrefix(s: string)
    ensures Fence <= s <==> FenceAt(s, 0)
  {
    if FenceAt(s, 0) {
      assert s[..3] == Fence;
    }
  }

  /** Removal of "```" keeps a first character that is not a backtick. */
  lemma KeepsNonTickHead(t: string)
    requires |t| > 0 && t[0] != '`'
    ensures RemoveAll(t, Fence) == [t[0]] + RemoveAll(t[1..], Fence)
  {
    assert !(Fence <= t) by { assert Fence[0] != t[0]; }
  }

  /** After removing every "```" left to right, no "```" is left: a backtick
      that survives is never followed by two surviving backticks. */
  lemma {:induction false} RemovalLeavesNoFence(s: string)
    ensures !HasFence(RemoveAll(s, Fence))
    decreases |s|
  {
    if |s| == 0 {
    } else if Fence <= s {
      RemovalLeavesNoFence(s[3..]);
    } else {
      var t := s[1..];
      RemovalLeavesNoFence(t);
      var r := RemoveAll(t, Fence);
      var out := [s[0]] + r;
      assert RemoveAll(s, Fence) == out;
      // a surviving leading backtick is not followed by two more
      if s[0] == '`' && |r| >= 2 && r[0] == '`' {
        assert |t| > 0;
        if t[0] != '`' {
          KeepsNonTickHead(t);
        } else {
          FencePrefix(s);
          FencePrefix(t);
          assert !FenceAt(s, 0);
          assert |t| >= 2 ==> t[1] != '`';
          assert !(Fence <= t);
          assert r == [t[0]] + RemoveAll(t[1..], Fence);
          if |t| >= 2 {
            KeepsNonTickHead(t[1..]);
          }
        }
      }
      forall i | FenceAt(out, i) ensures false {
        if i > 0 {
          assert FenceAt(r, i - 1);
        }
      }
    }
  }

  /** "```" inside a slice is "```" inside the whole string. */
  lemma FenceInSlice(s: string, a: int, b: int)
    requires 0 <= a <= b <= |s|
    requires HasFence(s[a..b])
    ensures HasFence(s)
  {
    var i :| 0 <= i < |s[a..b]| && FenceAt(s[a..b], i);
    assert s[a..b][i] == s[a + i] && s[a..b][i + 1] == s[a + i + 1] && s[a..b][i + 2] == s[a + i + 2];
    assert FenceAt(s, a + i);
  }

  /** What the JSON parser is given contains no code fence and starts and ends
      with a non-space character. */
  lemma StripFencesClean(reply: string)
    ensures var r := StripFences(reply);
      !HasFence(r) && (r == [] || (!IsSpace(r[0]) && !IsSpace(r[|r| - 1])))
  {
    var u := RemoveAll(RemoveAll(reply, JsonFence), Fence);
    RemovalLeavesNoFence(RemoveAll(reply, JsonFence));
    TrimKeepsNoFence(u);
  }

  /** Trimming cannot create a fence: the result is a slice of the input. */
  lemma TrimKeepsNoFence(u: string)
    requires !HasFence(u)
    ensures !HasFence(Trim(u))
  {
    var v := TrimStart(u);
    var r := TrimEnd(v);
    assert Trim(u) == r;
    if HasFence(r) {
      FenceInSlice(v, 0, |r|);
      assert v == u[|u| - |v|..|u|];
      FenceInSlice(u, |u| - |v|, |u|);
    }
  }

  /** A prefix free of backticks is untouched by removing a pattern that
      starts with a backtick. */
  lemma {:induction false} TickFreePrefix(a: string, b: string, pat: string)
    requires pat != [] && pat[0] == '`'
    requires forall i :: 0 <= i < |a| ==> a[i] != '`'
    ensures RemoveAll(a + b, pat) == a + RemoveAll(b, pat)
  {
    if |a| > 0 {
      var c := a + b;
      assert c[0] == a[0] != pat[0];
      assert !(pat <= c);
      assert RemoveAll(c, pat) == [c[0]] + RemoveAll(c[1..], pat);
      assert c[1..] == a[1..] + b;
      TickFreePrefix(a[1..], b, pat);
      assert a == [a[0]] + a[1..];
    } else {
      assert a + b == b;
    }
  }

  /** A string shorter than the pattern cannot contain it. */
  lemma {:induction false} ShorterThanPattern(s: string, pat: string)
    requires pat != [] && |s| < |pat|
    ensures RemoveAll(s, pat) == s
    decreases |s|
  {
    if |s| > 0 {
      ShorterThanPattern(s[1..], pat);
    }
  }

  lemma TrimStartSpace(c: char, y: string)
    requires IsSpace(c)
    ensures TrimStart([c] + y) == TrimStart(y)
  {
    assert ([c] + y)[1..] == y;
  }

  lemma TrimEndSpace(x: string, c: char)
    requires IsSpace(c)
    ensures TrimEnd(x + [c]) == TrimEnd(x)
  {
    assert (x + [c])[..|x|] == x;
  }

  /** Trimming a string wrapped in one newline on each side gives back the
      string, when it has no surrounding white space of its own. */
  lemma TrimNewlines(x: string)
    requires x == [] || (!IsSpace(x[0]) && !IsSpace(x[|x| - 1]))
    ensures Trim("\n" + x + "\n") == x
  {
    var y := x + "\n";
    assert "\n" + x + "\n" == ['\n'] + y;
    TrimStartSpace('\n', y);
    if x == [] {
      TrimStartSpace('\n', []);
    } else {
      assert y[0] == x[0];
      assert TrimStart(y) == y;
      TrimEndSpace(x, '\n');
    }
  }

  /** The usual fenced reply "```json\n X \n```" yields X itself, when X has no
      backtick and no surrounding white space. */
  lemma FencedReply(x: string)
    requires forall i :: 0 <= i < |x| ==> x[i] != '`'
    requires x == [] || (!IsSpace(x[0]) && !IsSpace(x[|x| - 1]))
    ensures StripFences(JsonFence + "\n" + x + "\n" + Fence) == x
  {
    var body := "\n" + x + "\n";
    var reply := JsonFence + "\n" + x + "\n" + Fence;
    assert reply == JsonFence + (body + Fence);
    assert forall i :: 0 <= i < |body| ==> body[i] != '`' by {
      forall i | 0 <= i < |body| ensures body[i] != '`' {
        if 0 < i < |body| - 1 { assert body[i] == x[i - 1]; }
      }
    }
    assert JsonFence <= reply;
    assert reply[|JsonFence|..] == body + Fence;
    assert RemoveAll(reply, JsonFence) == RemoveAll(body + Fence, JsonFence);
    TickFreePrefix(body, Fence, JsonFence);
    ShorterThanPattern(Fence, JsonFence);
    TickFreePrefix(body, Fence, Fence);
    assert Fence <= Fence && Fence[3..] == [];
    assert RemoveAll(Fence, Fence) == [];
    assert body + [] == body;
    TrimNewlines(x);
  }
}
