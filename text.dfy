/**
 * Byte-string helpers mirroring the parts of Go's `strings` package the
 * program relies on. Strings are sequences of characters standing for bytes;
 * whitespace, case and field splitting are the ASCII subset of Go's rules.
 */
module Text {

  /** ASCII white space as Go's unicode.IsSpace sees it below 0x80. */
  predicate IsSpace(c: char)
  {
    c == ' ' || c == '\t' || c == '\n' || c == '\r' || c == '\U{0B}' || c == '\U{0C}'
  }

  predicate HasPrefix(s: string, p: string)
  {
    |p| <= |s| && s[..|p|] == p
  }

  /** strings.TrimPrefix */
  function TrimPrefix(s: string, p: string): (r: string)
    ensures HasPrefix(s, p) ==> s == p + r
    ensures !HasPrefix(s, p) ==> r == s
  {
    if HasPrefix(s, p) then (assert s == p + s[|p|..]; s[|p|..]) else s
  }

  /** `sub` occurs in `s` starting at index `k`. */
  predicate OccursAt(s: string, sub: string, k: int)
  {
    0 <= k && k + |sub| <= |s| && s[k..k + |sub|] == sub
  }

  /** strings.Contains */
  predicate Contains(s: string, sub: string)
  {
    exists k | 0 <= k <= |s| - |sub| :: OccursAt(s, sub, k)
  }

  /** strings.Index: the first occurrence of `sub` in `s`, or -1. */
  function IndexOf(s: string, sub: string): (r: int)
    ensures r == -1 || OccursAt(s, sub, r)
    ensures forall k | 0 <= k && (r == -1 || k < r) :: !OccursAt(s, sub, k)
    ensures r >= 0 <==> Contains(s, sub)
  {
    IndexFrom(s, sub, 0)
  }

  function IndexFrom(s: string, sub: string, from: nat): (r: int)
    requires forall k | 0 <= k < from :: !OccursAt(s, sub, k)
    ensures r == -1 || (from <= r && OccursAt(s, sub, r))
    ensures forall k | 0 <= k && (r == -1 || k < r) :: !OccursAt(s, sub, k)
    decreases |s| + 1 - from
  {
    if from + |sub| > |s| then
      assert forall k | from <= k :: !OccursAt(s, sub, k);
      -1
    else if s[from..from + |sub|] == sub then from
    else IndexFrom(s, sub, from + 1)
  }

  /** Number of leading white-space characters. */
  function LeadingSpaces(s: string): (n: nat)
    ensures n <= |s|
    ensures forall i | 0 <= i < n :: IsSpace(s[i])
    ensures n < |s| ==> !IsSpace(s[n])
  {
    if |s| == 0 || !IsSpace(s[0]) then 0 else 1 + LeadingSpaces(s[1..])
  }

  /** Number of trailing white-space characters. */
  function TrailingSpaces(s: string): (n: nat)
    ensures n <= |s|
    ensures forall i | |s| - n <= i < |s| :: IsSpace(s[i])
    ensures n < |s| ==> !IsSpace(s[|s| - n - 1])
  {
    if |s| == 0 || !IsSpace(s[|s| - 1]) then 0 else 1 + TrailingSpaces(s[..|s| - 1])
  }

  /** strings.TrimSpace over ASCII white space. */
  function TrimSpace(s: string): (r: string)
    ensures |r| <= |s|
    ensures |r| > 0 ==> !IsSpace(r[0]) && !IsSpace(r[|r| - 1])
    ensures forall c | c in r :: c in s
  {
    var t := s[LeadingSpaces(s)..];
    t[..|t| - TrailingSpaces(t)]
  }

  /** TrimSpace keeps exactly the middle of `s` between its leading and trailing white space. */
  lemma TrimSpaceMiddle(s: string)
    ensures LeadingSpaces(s) == |s| ==> TrimSpace(s) == ""
    ensures LeadingSpaces(s) < |s| ==>
              LeadingSpaces(s) < |s| - TrailingSpaces(s)
              && TrimSpace(s) == s[LeadingSpaces(s)..|s| - TrailingSpaces(s)]
  {
    if LeadingSpaces(s) == |s| {
      TrimAllSpace(s);
    } else {
      TrimInner(s);
    }
  }

  lemma TrimAllSpace(s: string)
    requires LeadingSpaces(s) == |s|
    ensures TrimSpace(s) == ""
  {
    assert s[LeadingSpaces(s)..] == "";
  }

  lemma TrimInner(s: string)
    requires LeadingSpaces(s) < |s|
    ensures LeadingSpaces(s) < |s| - TrailingSpaces(s)
    ensures TrimSpace(s) == s[LeadingSpaces(s)..|s| - TrailingSpaces(s)]
  {
    hide TrimSpace, LeadingSpaces, TrailingSpaces;
    TrimInnerLength(s);
    TrimSpaceAt(s);
    SliceByIndex(TrimSpace(s), s, LeadingSpaces(s), |s| - TrailingSpaces(s));
  }

  /** TrimSpace reads the input in place, from just after its leading white space. */
  lemma TrimSpaceAt(s: string)
    ensures LeadingSpaces(s) + |TrimSpace(s)| <= |s|
    ensures forall i | 0 <= i < |TrimSpace(s)| :: TrimSpace(s)[i] == s[LeadingSpaces(s) + i]
  {
  }

  lemma TrimInnerLength(s: string)
    requires LeadingSpaces(s) < |s|
    ensures LeadingSpaces(s) < |s| - TrailingSpaces(s)
    ensures |TrimSpace(s)| == |s| - LeadingSpaces(s) - TrailingSpaces(s)
  {
    hide TrimSpace, LeadingSpaces, TrailingSpaces;
    TrimSpaceLength(s);
    TrailingOfSuffix(s, LeadingSpaces(s));
  }

  lemma SliceByIndex<T>(r: seq<T>, s: seq<T>, a: nat, b: nat)
    requires a <= b <= |s| && |r| == b - a
    requires forall i | 0 <= i < |r| :: r[i] == s[a + i]
    ensures r == s[a..b]
  {
  }

  lemma TrimSpaceLength(s: string)
    ensures |TrimSpace(s)| == |s| - LeadingSpaces(s) - TrailingSpaces(s[LeadingSpaces(s)..])
  {
  }

  /** Dropping a prefix that ends before a non-space character keeps the trailing white space. */
  lemma TrailingOfSuffix(s: string, a: nat)
    requires a < |s| && !IsSpace(s[a])
    ensures TrailingSpaces(s) < |s| - a && TrailingSpaces(s[a..]) == TrailingSpaces(s)
  {
    hide TrailingSpaces;
    var n := TrailingSpaces(s);
    var t := s[a..];
    assert n < |t| by {
      assert !IsSpace(s[a]);
    }
    assert forall i | |t| - n <= i < |t| :: t[i] == s[a + i];
    assert t[|t| - n - 1] == s[|s| - n - 1];
    TrailingUnique(t, n);
  }

  /** TrailingSpaces is the only count whose suffix is all white space and is preceded by none. */
  lemma TrailingUnique(x: string, n: nat)
    requires n <= |x|
    requires forall i | |x| - n <= i < |x| :: IsSpace(x[i])
    requires n < |x| ==> !IsSpace(x[|x| - n - 1])
    ensures TrailingSpaces(x) == n
  {
  }

  function LowerChar(c: char): char
  {
    if 'A' <= c <= 'Z' then (c as int + 32) as char else c
  }

  function UpperChar(c: char): char
  {
    if 'a' <= c <= 'z' then (c as int - 32) as char else c
  }

  /** strings.ToLower over ASCII letters. */
  function ToLower(s: string): (r: string)
    ensures |r| == |s| && forall i | 0 <= i < |s| :: r[i] == LowerChar(s[i])
  {
    seq(|s|, i requires 0 <= i < |s| => LowerChar(s[i]))
  }

  /** strings.ToUpper over ASCII letters. */
  function ToUpper(s: string): (r: string)
    ensures |r| == |s| && forall i | 0 <= i < |s| :: r[i] == UpperChar(s[i])
  {
    seq(|s|, i requires 0 <= i < |s| => UpperChar(s[i]))
  }

  /** Length of the longest prefix of `s` free of white space. */
  function WordLength(s: string): (n: nat)
    ensures n <= |s|
    ensures forall i | 0 <= i < n :: !IsSpace(s[i])
    ensures n < |s| ==> IsSpace(s[n])
  {
    if |s| == 0 || IsSpace(s[0]) then 0 else 1 + WordLength(s[1..])
  }

  /** strings.Fields over ASCII white space: the maximal runs of non-space bytes. */
  function Fields(s: string): (r: seq<string>)
    ensures forall w | w in r :: |w| > 0 && forall c | c in w :: !IsSpace(c)
    decreases |s|
  {
    if |s| == 0 then []
    else if IsSpace(s[0]) then Fields(s[1..])
    else
      var n := WordLength(s);
      [s[..n]] + Fields(s[n..])
  }

  /** The non-space characters of `s`, in order. */
  function NonSpace(s: string): (r: string)
    ensures |r| <= |s|
  {
    if |s| == 0 then "" else (if IsSpace(s[0]) then "" else [s[0]]) + NonSpace(s[1..])
  }

  /** The words of `ws` written one after another. */
  function Concat(ws: seq<string>): string
  {
    if |ws| == 0 then "" else ws[0] + Concat(ws[1..])
  }

  /**
   * Number of word starts in `s`: positions holding a non-space character
   * that is first in `s` (when `afterSpace`) or follows a white-space character.
   */
  function WordStarts(s: string, afterSpace: bool): nat
  {
    if |s| == 0 then 0
    else (if afterSpace && !IsSpace(s[0]) then 1 else 0) + WordStarts(s[1..], IsSpace(s[0]))
  }

  lemma ConcatCons(w: string, ws: seq<string>)
    ensures Concat([w] + ws) == w + Concat(ws)
  {
    assert ([w] + ws)[1..] == ws;
  }

  lemma {:induction false} NonSpaceAppend(a: string, b: string)
    ensures NonSpace(a + b) == NonSpace(a) + NonSpace(b)
  {
    if |a| > 0 {
      assert (a + b)[1..] == a[1..] + b;
      NonSpaceAppend(a[1..], b);
    } else {
      assert a + b == b;
    }
  }

  lemma {:induction false} NonSpaceOfWord(w: string)
    requires forall i | 0 <= i < |w| :: !IsSpace(w[i])
    ensures NonSpace(w) == w
  {
    if |w| > 0 {
      NonSpaceOfWord(w[1..]);
    }
  }

  /** The fields, put back together, are `s` with its white space removed, in order. */
  lemma {:induction false} FieldsJoin(s: string)
    ensures Concat(Fields(s)) == NonSpace(s)
    decreases |s|
  {
    if |s| > 0 {
      if IsSpace(s[0]) {
        FieldsJoin(s[1..]);
      } else {
        var n := WordLength(s);
        var w, rest := s[..n], s[n..];
        assert Fields(s) == [w] + Fields(rest);
        assert s == w + rest;
        hide Fields, NonSpace;
        calc {
          Concat(Fields(s));
          { ConcatCons(w, Fields(rest)); }
          w + Concat(Fields(rest));
          { FieldsJoin(rest); NonSpaceOfWord(w); }
          NonSpace(w) + NonSpace(rest);
          { NonSpaceAppend(w, rest); }
          NonSpace(s);
        }
      }
    }
  }

  /** There is one field per word start. */
  lemma {:induction false} FieldsCount(s: string)
    ensures |Fields(s)| == WordStarts(s, true)
    ensures WordStarts(s, false) == |Fields(s)| - (if |s| > 0 && !IsSpace(s[0]) then 1 else 0)
    decreases |s|
  {
    if |s| > 0 {
      FieldsCount(s[1..]);
      if !IsSpace(s[0]) {
        var n := WordLength(s);
        if n > 1 {
          var u := s[1..];
          assert WordLength(u) == n - 1;
          assert u[n - 1..] == s[n..];
          assert Fields(u) == [u[..n - 1]] + Fields(s[n..]);
        } else {
          assert s[1..] == s[n..];
        }
      }
    }
  }

  /** Length of the longest prefix of `s` free of `sep`. */
  function SegmentLength(s: string, sep: char): (n: nat)
    ensures n <= |s|
    ensures sep !in s[..n]
    ensures n < |s| ==> s[n] == sep
  {
    if |s| == 0 || s[0] == sep then 0
    else
      var m := SegmentLength(s[1..], sep);
      assert s[..1 + m] == [s[0]] + s[1..][..m];
      1 + m
  }

  /** strings.Split with a one-byte separator; always at least one piece. */
  function Split(s: string, sep: char): (r: seq<string>)
    ensures |r| >= 1
    ensures forall p | p in r :: sep !in p
    decreases |s|
  {
    var n := SegmentLength(s, sep);
    if n == |s| then [s] else [s[..n]] + Split(s[n + 1..], sep)
  }

  /** strings.Join */
  function Join(parts: seq<string>, sep: string): (r: string)
  {
    if |parts| == 0 then ""
    else if |parts| == 1 then parts[0]
    else parts[0] + sep + Join(parts[1..], sep)
  }

  /** Splitting on a byte and joining back with it restores the string. */
  lemma {:induction false} JoinSplit(s: string, sep: char)
    ensures Join(Split(s, sep), [sep]) == s
    decreases |s|
  {
    var n := SegmentLength(s, sep);
    if n < |s| {
      var rest := s[n + 1..];
      JoinSplit(rest, sep);
      assert Split(s, sep) == [s[..n]] + Split(rest, sep);
      assert s == s[..n] + [sep] + rest;
    }
  }

  /** A segment free of the separator, followed by the separator or nothing, is cut exactly there. */
  lemma SegmentLengthAt(a: string, b: string, sep: char)
    requires sep !in a
    requires b == [] || b[0] == sep
    ensures SegmentLength(a + b, sep) == |a|
  {
    assert (a + b)[..|a|] == a;
  }

  /** Joining pieces free of the separator and splitting again gives the pieces back. */
  lemma {:induction false} SplitJoin(parts: seq<string>, sep: char)
    requires |parts| >= 1
    requires forall p | p in parts :: sep !in p
    ensures Split(Join(parts, [sep]), sep) == parts
    decreases |parts|
  {
    if |parts| == 1 {
      SegmentLengthAt(parts[0], [], sep);
      assert parts[0] + [] == parts[0];
    } else {
      SplitJoinStep(parts, sep);
      SplitJoin(parts[1..], sep);
      assert parts == [parts[0]] + parts[1..];
    }
  }

  /** Splitting a join of two or more pieces cuts off the first piece. */
  lemma SplitJoinStep(parts: seq<string>, sep: char)
    requires |parts| >= 2
    requires sep !in parts[0]
    ensures Split(Join(parts, [sep]), sep) == [parts[0]] + Split(Join(parts[1..], [sep]), sep)
  {
    var tail := Join(parts[1..], [sep]);
    var s := parts[0] + [sep] + tail;
    assert Join(parts, [sep]) == s;
    assert s == parts[0] + ([sep] + tail);
    SegmentLengthAt(parts[0], [sep] + tail, sep);
    assert s[|parts[0]| + 1..] == tail;
    assert s[..|parts[0]|] == parts[0];
  }

  function DigitChar(d: nat): char
    requires d < 10
  {
    "0123456789"[d]
  }

  /** fmt's %d for a non-negative integer: decimal digits, no leading zero. */
  function NatToString(n: nat): (r: string)
    ensures |r| >= 1
    ensures forall c | c in r :: '0' <= c <= '9'
    ensures r[0] == '0' ==> n == 0
  {
    if n < 10 then [DigitChar(n)] else NatToString(n / 10) + [DigitChar(n % 10)]
  }

  /** The number a string of decimal digits spells. */
  function DigitsValue(s: string): nat
  {
    if |s| == 0 then 0
    else
      var c := s[|s| - 1];
      DigitsValue(s[..|s| - 1]) * 10 + (if '0' <= c <= '9' then c as int - '0' as int else 0)
  }

  /** Reading the digits back gives the number they were written from. */
  lemma {:induction false} NatToStringRoundTrip(n: nat)
    ensures DigitsValue(NatToString(n)) == n
  {
    if n >= 10 {
      NatToStringRoundTrip(n / 10);
      var s := NatToString(n / 10);
      assert (s + [DigitChar(n % 10)])[..|s|] == s;
    }
  }

  /** fmt's %d for any integer: a minus sign exactly for negatives, then the digits of the magnitude. */
  function IntToString(n: int): (r: string)
    ensures |r| >= 1
    ensures r[0] == '-' <==> n < 0
    ensures n < 0 ==> DigitsValue(r[1..]) == -n
    ensures n >= 0 ==> DigitsValue(r) == n
  {
    NatToStringRoundTrip(if n < 0 then -n else n);
    assert NatToString(if n < 0 then -n else n)[0] in NatToString(if n < 0 then -n else n);
    if n < 0 then "-" + NatToString(-n) else NatToString(n)
  }
}
