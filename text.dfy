/** The JavaScript string operations the core relies on: `indexOf`, `replace` with a one-character
    pattern (first occurrence only), `split('@')[0]`, `toLowerCase`, `trim`, the upper-casing of
    one character, and `||` on optional strings (the empty string is falsy). */
module Text {
  import opened Outcomes

  /** `s.indexOf(c)`: the position of the first `c` in `s`, or -1 when there is none. */
  function IndexOf(s: string, c: char): (r: int)
    ensures -1 <= r < |s|
    ensures r == -1 <==> c !in s
    ensures r >= 0 ==> s[r] == c && c !in s[..r]
  {
    if s == [] then -1
    else if s[0] == c then 0
    else
      var k := IndexOf(s[1..], c);
      assert s == [s[0]] + s[1..];
      if k == -1 then -1
      else
        assert s[..k + 1] == [s[0]] + s[1..][..k];
        k + 1
  }

  /** The first `c` of `pre + [c] + post` is the one right after `pre` when `pre` has none. */
  lemma IndexOfAfter(pre: string, c: char, post: string)
    requires c !in pre
    ensures IndexOf(pre + [c] + post, c) == |pre|
  {
    var s := pre + [c] + post;
    assert s[|pre|] == c;
    assert forall k :: 0 <= k < |pre| ==> s[k] == pre[k];
  }

  /** `s.replace(c, rep)` with a one-character string pattern: only the first `c` is replaced. */
  function ReplaceFirst(s: string, c: char, rep: string): (r: string)
    ensures c !in s ==> r == s
    ensures c in s ==> |r| == |s| - 1 + |rep|
  {
    var i := IndexOf(s, c);
    if i < 0 then s else s[..i] + rep + s[i + 1..]
  }

  /** Replacing the first `c` of `pre + [c] + post`, where `pre` has no `c`, leaves `post`
      untouched even when it holds more `c`s. */
  lemma ReplaceFirstAt(pre: string, c: char, post: string, rep: string)
    requires c !in pre
    ensures ReplaceFirst(pre + [c] + post, c, rep) == pre + rep + post
  {
    var s := pre + [c] + post;
    IndexOfAfter(pre, c, post);
    assert s[..|pre|] == pre;
    assert s[|pre| + 1..] == post;
  }

  /** Replacing the first `c` of `head + rest`, where `head` has no `c`, only touches `rest`. */
  lemma ReplaceFirstSkips(head: string, rest: string, c: char, rep: string)
    requires c !in head
    ensures ReplaceFirst(head + rest, c, rep) == head + ReplaceFirst(rest, c, rep)
  {
    if c in rest {
      var k := IndexOf(rest, c);
      var pre, post := rest[..k], rest[k + 1..];
      assert rest == pre + [c] + post;
      assert c !in head + pre by {
        assert forall x :: x in head + pre ==> x in head || x in pre;
      }
      calc {
        ReplaceFirst(head + rest, c, rep);
        == { assert head + rest == (head + pre) + [c] + post; }
        ReplaceFirst((head + pre) + [c] + post, c, rep);
        == { ReplaceFirstAt(head + pre, c, post, rep); }
        (head + pre) + rep + post;
        == head + (pre + rep + post);
        == { ReplaceFirstAt(pre, c, post, rep); }
        head + ReplaceFirst(rest, c, rep);
      }
    } else {
      assert forall x :: x in head + rest ==> x in head || x in rest;
    }
  }

  /** `s.split('@')[0]`: the text before the first '@', or all of `s` when it has none. */
  function LocalPart(s: string): (r: string)
    ensures '@' !in r
    ensures |r| <= |s| && r == s[..|r|]
    ensures '@' in s ==> s[|r|] == '@'
    ensures '@' !in s ==> r == s
  {
    var i := IndexOf(s, '@');
    if i < 0 then s else s[..i]
  }

  /** The local part of `pre + "@" + post` is `pre` exactly, whatever `post` holds. */
  lemma LocalPartOf(pre: string, post: string)
    requires '@' !in pre
    ensures LocalPart(pre + "@" + post) == pre
  {
    IndexOfAfter(pre, '@', post);
    assert (pre + "@" + post)[..|pre|] == pre;
  }

  /** The characters `String.prototype.trim` removes: ECMAScript WhiteSpace and LineTerminator. */
  predicate IsJsSpace(c: char)
  {
    || c == '\t' || c == '\n' || c == '\U{000B}' || c == '\U{000C}' || c == '\r' || c == ' '
    || c == '\U{00A0}' || c == '\U{1680}' || ('\U{2000}' <= c <= '\U{200A}')
    || c == '\U{2028}' || c == '\U{2029}' || c == '\U{202F}' || c == '\U{205F}'
    || c == '\U{3000}' || c == '\U{FEFF}'
  }

  predicate IsAsciiUpper(c: char) { 'A' <= c <= 'Z' }

  predicate IsAsciiLower(c: char) { 'a' <= c <= 'z' }

  /** One character of `toLowerCase`: 'A'..'Z' become 'a'..'z', everything else is kept. */
  function LowerChar(c: char): (r: char)
    ensures !IsAsciiUpper(r)
    ensures IsAsciiUpper(c) ==> IsAsciiLower(r) && r as int == c as int + 32
    ensures !IsAsciiUpper(c) ==> r == c
  {
    if IsAsciiUpper(c) then (c as int + 32) as char else c
  }

  function UpperChar(c: char): (r: char)
    ensures !IsAsciiLower(r)
    ensures !IsAsciiLower(c) ==> r == c
  {
    if IsAsciiLower(c) then (c as int - 32) as char else c
  }

  /** `s.toLowerCase()` on ASCII letters; every other character is kept. */
  function ToLower(s: string): (r: string)
    ensures |r| == |s|
    ensures forall i :: 0 <= i < |s| ==> r[i] == LowerChar(s[i])
    ensures forall i :: 0 <= i < |r| ==> !IsAsciiUpper(r[i])
    ensures forall i :: 0 <= i < |s| && !IsAsciiUpper(s[i]) ==> r[i] == s[i]
  {
    seq(|s|, i requires 0 <= i < |s| => LowerChar(s[i]))
  }

  /** Lower-casing works character by character, so it distributes over concatenation. */
  lemma ToLowerAppend(a: string, b: string)
    ensures ToLower(a + b) == ToLower(a) + ToLower(b)
  {
    assert forall i :: 0 <= i < |a + b| ==> ToLower(a + b)[i] == (ToLower(a) + ToLower(b))[i];
  }

  /** A string without upper-case letters is its own lower-case form. */
  lemma ToLowerFixed(s: string)
    requires forall i :: 0 <= i < |s| ==> !IsAsciiUpper(s[i])
    ensures ToLower(s) == s
  {
    assert forall i :: 0 <= i < |s| ==> ToLower(s)[i] == s[i];
  }

  /** Two strings that agree up to the case of their ASCII letters lower-case alike. */
  lemma ToLowerIgnoresCase(a: string, b: string)
    requires |a| == |b| && forall i :: 0 <= i < |a| ==> LowerChar(a[i]) == LowerChar(b[i])
    ensures ToLower(a) == ToLower(b)
  {
    assert forall i :: 0 <= i < |a| ==> ToLower(a)[i] == ToLower(b)[i];
  }

  /** Drops leading white space: the result is the suffix of `s` that starts at its first
      non-space character. */
  function TrimStart(s: string): (r: string)
    ensures |r| <= |s| && r == s[|s| - |r|..]
    ensures forall k :: 0 <= k < |s| - |r| ==> IsJsSpace(s[k])
    ensures r == [] || !IsJsSpace(r[0])
  {
    if s != [] && IsJsSpace(s[0]) then TrimStart(s[1..]) else s
  }

  /** Drops trailing white space: the result is the prefix of `s` that ends at its last
      non-space character. */
  function TrimEnd(s: string): (r: string)
    ensures |r| <= |s| && r == s[..|r|]
    ensures forall k :: |r| <= k < |s| ==> IsJsSpace(s[k])
    ensures r == [] || !IsJsSpace(r[|r| - 1])
  {
    if s != [] && IsJsSpace(s[|s| - 1]) then TrimEnd(s[..|s| - 1]) else s
  }

  /** `s.trim()`. */
  function Trim(s: string): (r: string)
    ensures r == [] || (!IsJsSpace(r[0]) && !IsJsSpace(r[|r| - 1]))
  {
    TrimEnd(TrimStart(s))
  }

  predicate AllJsSpace(s: string)
  {
    forall i :: 0 <= i < |s| ==> IsJsSpace(s[i])
  }

  /** Leading white space in front of `s` is dropped as if it were not there. */
  lemma {:induction false} TrimStartSkips(pre: string, s: string)
    requires AllJsSpace(pre)
    ensures TrimStart(pre + s) == TrimStart(s)
  {
    if pre != [] {
      assert (pre + s)[0] == pre[0];
      assert (pre + s)[1..] == pre[1..] + s;
      TrimStartSkips(pre[1..], s);
    } else {
      assert pre + s == s;
    }
  }

  /** Trailing white space after `s` is dropped as if it were not there. */
  lemma {:induction false} TrimEndSkips(s: string, post: string)
    requires AllJsSpace(post)
    ensures TrimEnd(s + post) == TrimEnd(s)
  {
    if post != [] {
      var t := s + post;
      assert t[|t| - 1] == post[|post| - 1];
      assert t[..|t| - 1] == s + post[..|post| - 1];
      TrimEndSkips(s, post[..|post| - 1]);
    } else {
      assert s + post == s;
    }
  }

  /** Trimming a string that neither starts nor ends with white space changes nothing. */
  lemma TrimmedIsFixed(s: string)
    requires s == [] || (!IsJsSpace(s[0]) && !IsJsSpace(s[|s| - 1]))
    ensures Trim(s) == s
  {
  }

  /** Trimming only removes characters, so it keeps a string free of upper-case letters. */
  lemma TrimKeepsLowerCase(s: string)
    requires forall i :: 0 <= i < |s| ==> !IsAsciiUpper(s[i])
    ensures forall i :: 0 <= i < |Trim(s)| ==> !IsAsciiUpper(Trim(s)[i])
  {
    var a := TrimStart(s);
    SliceKeepsLowerCase(s, |s| - |a|, |s|);
    SliceKeepsLowerCase(a, 0, |TrimEnd(a)|);
  }

  lemma SliceKeepsLowerCase(s: string, lo: nat, hi: nat)
    requires lo <= hi <= |s|
    requires forall i :: 0 <= i < |s| ==> !IsAsciiUpper(s[i])
    ensures forall i :: 0 <= i < hi - lo ==> !IsAsciiUpper(s[lo..hi][i])
  {
    forall i | 0 <= i < hi - lo
      ensures !IsAsciiUpper(s[lo..hi][i])
    {
      assert s[lo..hi][i] == s[lo + i];
    }
  }

  /** `email.toLowerCase().trim()`: the normal form used as the demo-account key. */
  function NormalizeEmail(email: string): (r: string)
    ensures |r| <= |email|
    ensures forall i :: 0 <= i < |r| ==> !IsAsciiUpper(r[i])
    ensures r == [] || (!IsJsSpace(r[0]) && !IsJsSpace(r[|r| - 1]))
  {
    TrimKeepsLowerCase(ToLower(email));
    Trim(ToLower(email))
  }

  /** What normalising gives, for every email: written as white space, a core that neither
      starts nor ends with white space, and white space, it is the core in lower case. */
  lemma NormalizeEmailIsLowerCore(pre: string, core: string, post: string)
    requires AllJsSpace(pre) && AllJsSpace(post)
    requires core == [] || (!IsJsSpace(core[0]) && !IsJsSpace(core[|core| - 1]))
    ensures NormalizeEmail(pre + core + post) == ToLower(core)
  {
    var l := ToLower(core);
    LowerCoreIsTrimmed(core);
    LowerSurroundings(pre, core, post);
    var t := l + post;
    TrimStartSkips(pre, t);
    assert TrimStart(pre + t) == TrimStart(t);
    if l == [] {
      assert t == post + [];
      TrimStartSkips(post, []);
      assert TrimStart(t) == [];
    } else {
      assert t[0] == l[0];
      assert TrimStart(t) == t;
      TrimEndSkips(l, post);
      assert TrimEnd(t) == TrimEnd(l) == l;
    }
  }

  lemma LowerCoreIsTrimmed(core: string)
    requires core == [] || (!IsJsSpace(core[0]) && !IsJsSpace(core[|core| - 1]))
    ensures var l := ToLower(core); l == [] || (!IsJsSpace(l[0]) && !IsJsSpace(l[|l| - 1]))
  {
    if core != [] {
      LowerCharKeepsSpace(core[0]);
      LowerCharKeepsSpace(core[|core| - 1]);
    }
  }

  /** Lower-casing never turns a character into white space or white space into something
      else. */
  lemma LowerCharKeepsSpace(c: char)
    ensures IsJsSpace(LowerChar(c)) <==> IsJsSpace(c)
  {
  }

  lemma LowerSurroundings(pre: string, core: string, post: string)
    requires AllJsSpace(pre) && AllJsSpace(post)
    ensures NormalizeEmail(pre + core + post) == Trim(pre + (ToLower(core) + post))
  {
    ToLowerAppend(pre + core, post);
    ToLowerAppend(pre, core);
    ToLowerFixed(pre);
    ToLowerFixed(post);
    assert ToLower(pre + core + post) == pre + (ToLower(core) + post);
  }

  /** The email typed in any mix of upper and lower case normalises to the same key. */
  lemma NormalizeEmailIgnoresCase(a: string, b: string)
    requires |a| == |b| && forall i :: 0 <= i < |a| ==> LowerChar(a[i]) == LowerChar(b[i])
    ensures NormalizeEmail(a) == NormalizeEmail(b)
  {
    ToLowerIgnoresCase(a, b);
  }

  /** A mixed-case email with a space on each side. */
  lemma NormalizeEmailExample()
    ensures NormalizeEmail(" ADMIN@Example.COM ") == "admin@example.com"
  {
    var core := "ADMIN@Example.COM";
    assert " " + core + " " == " ADMIN@Example.COM ";
    NormalizeEmailIsLowerCore(" ", core, " ");
    LowerExample();
  }

  lemma LowerExample()
    ensures ToLower("ADMIN@Example.COM") == "admin@example.com"
  {
    var core := "ADMIN@Example.COM";
    var l := ToLower(core);
    forall i | 0 <= i < |core|
      ensures l[i] == "admin@example.com"[i]
    {
      assert l[i] == LowerChar(core[i]);
    }
  }

  /** Normalising an already normalised email changes nothing. */
  lemma NormalizeEmailIdempotent(email: string)
    ensures NormalizeEmail(NormalizeEmail(email)) == NormalizeEmail(email)
  {
    var t := NormalizeEmail(email);
    ToLowerFixed(t);
    assert Trim(ToLower(t)) == Trim(t);
    TrimmedIsFixed(t);
  }

  /** `s.charAt(0).toUpperCase() + s.slice(1)` with ASCII upper-casing. */
  function Capitalize(s: string): (r: string)
    ensures |r| == |s|
    ensures r != [] ==> !IsAsciiLower(r[0]) && r[1..] == s[1..]
  {
    if s == [] then [] else [UpperChar(s[0])] + s[1..]
  }

  /** `s || d` for an optional string: the empty string and a missing one both give `d`. */
  function OrElse(s: Option<string>, d: string): (r: string)
    ensures s.Some? && s.value != [] ==> r == s.value
    ensures s.None? || s.value == [] ==> r == d
  {
    if s.Some? && s.value != [] then s.value else d
  }

  /** `s || null`: a present, non-empty string, or nothing. */
  function OrNull(s: Option<string>): (r: Option<string>)
    ensures r.Some? <==> s.Some? && s.value != []
    ensures r.Some? ==> r == s
  {
    if s.Some? && s.value != [] then s else None
  }
}
