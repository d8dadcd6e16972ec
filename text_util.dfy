/** `wintolin(s)`: `s.replace('\r\n', '\n')`, Python's left-to-right, non-overlapping
    replacement of every CR LF pair by a lone LF. */
module TextUtil {

  /** A CR LF pair starts at index `i`. */
  predicate CrlfAt(s: string, i: int)
  {
    0 <= i && i + 1 < |s| && s[i] == '\r' && s[i + 1] == '\n'
  }

  predicate HasCrlf(s: string)
  {
    exists i :: 0 <= i < |s| && CrlfAt(s, i)
  }

  /** The number of CR LF pairs (`s.count('\r\n')`; two pairs can never overlap). */
  function CrlfCount(s: string): nat
  {
    if |s| < 2 then 0
    else (if CrlfAt(s, 0) then 1 else 0) + CrlfCount(s[1..])
  }

  function CharCount(s: string, c: char): nat
  {
    if s == [] then 0 else (if s[0] == c then 1 else 0) + CharCount(s[1..], c)
  }

  /** The replacement as `str.replace` performs it: scan from the left; at a pair, emit LF
      and resume after the pair; otherwise copy one character. */
  function Wintolin(s: string): (r: string)
  {
    if |s| < 2 then s
    else if s[0] == '\r' && s[1] == '\n' then "\n" + Wintolin(s[2..])
    else [s[0]] + Wintolin(s[1..])
  }

  /** The reference: the input with exactly the CRs that begin a pair deleted, every other
      character kept in order. */
  function DropPairedCr(s: string): string
  {
    if s == [] then [] else (if CrlfAt(s, 0) then [] else [s[0]]) + DropPairedCr(s[1..])
  }

  lemma {:induction false} WintolinDropsPairedCr(s: string)
    ensures Wintolin(s) == DropPairedCr(s)
    decreases |s|
  {
    if |s| < 2 {
    } else if s[0] == '\r' && s[1] == '\n' {
      WintolinDropsPairedCr(s[2..]);
      assert s[1..][1..] == s[2..];
      assert !CrlfAt(s[1..], 0);
    } else {
      WintolinDropsPairedCr(s[1..]);
    }
  }

  /** One character shorter per pair replaced, hence never longer. */
  lemma {:induction false} WintolinLength(s: string)
    ensures |Wintolin(s)| == |s| - CrlfCount(s)
    ensures |Wintolin(s)| <= |s|
    decreases |s|
  {
    if |s| < 2 {
    } else if s[0] == '\r' && s[1] == '\n' {
      WintolinLength(s[2..]);
      assert s[1..][1..] == s[2..];
      assert !CrlfAt(s[1..], 0);
      if |s[1..]| >= 2 {
        assert CrlfCount(s[1..]) == CrlfCount(s[2..]);
      }
    } else {
      WintolinLength(s[1..]);
    }
  }

  /** Line feeds are neither added nor lost. */
  lemma {:induction false} WintolinKeepsLineFeeds(s: string)
    ensures CharCount(Wintolin(s), '\n') == CharCount(s, '\n')
    decreases |s|
  {
    if |s| < 2 {
    } else if s[0] == '\r' && s[1] == '\n' {
      WintolinKeepsLineFeeds(s[2..]);
      assert s[1..][1..] == s[2..];
      CharCountAppend("\n", Wintolin(s[2..]), '\n');
    } else {
      WintolinKeepsLineFeeds(s[1..]);
      CharCountAppend([s[0]], Wintolin(s[1..]), '\n');
    }
  }

  lemma {:induction false} CharCountAppend(a: string, b: string, c: char)
    ensures CharCount(a + b, c) == CharCount(a, c) + CharCount(b, c)
    decreases |a|
  {
    if a != [] {
      assert (a + b)[1..] == a[1..] + b;
      CharCountAppend(a[1..], b, c);
    } else {
      assert a + b == b;
    }
  }

  /** A string without a pair comes back unchanged. */
  lemma {:induction false} WintolinWithoutCrlf(s: string)
    requires !HasCrlf(s)
    ensures Wintolin(s) == s
    decreases |s|
  {
    if |s| >= 2 {
      assert !CrlfAt(s, 0);
      assert !HasCrlf(s[1..]) by {
        forall i | CrlfAt(s[1..], i) ensures CrlfAt(s, i + 1) { }
      }
      WintolinWithoutCrlf(s[1..]);
    }
  }

  /** The replacement is single-pass: its output may hold a pair again, so applying it
      twice can differ from applying it once. */
  lemma WintolinNotIdempotent()
    ensures Wintolin("\r\r\n") == "\r\n"
    ensures HasCrlf(Wintolin("\r\r\n"))
    ensures Wintolin(Wintolin("\r\r\n")) != Wintolin("\r\r\n")
  {
    assert CrlfAt("\r\n", 0);
  }
}
