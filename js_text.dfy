/** The JavaScript string and array built-ins that the server and the client
    rely on (trim, startsWith, includes, indexOf, lastIndexOf, substring, map,
    join), stated over strings as sequences of characters. */
module JsText {

  datatype Option<+T> = None | Some(value: T)

  /** The WhiteSpace and LineTerminator code points of ECMAScript: the
      characters String.prototype.trim removes from both ends. */
  predicate IsWhite(c: char) {
    || c == '\t' || c == '\n' || c == '\U{B}' || c == '\U{C}' || c == '\r'
    || c == ' ' || c == '\U{A0}' || c == '\U{1680}'
    || ('\U{2000}' <= c <= '\U{200A}')
    || c == '\U{2028}' || c == '\U{2029}' || c == '\U{202F}' || c == '\U{205F}'
    || c == '\U{3000}' || c == '\U{FEFF}'
  }

  /** String.prototype.startsWith, without a position argument. */
  predicate StartsWith(s: string, p: string) {
    p <= s
  }

  /** p occurs in s starting at index i. */
  predicate OccursAt(s: string, p: string, i: int) {
    0 <= i && i + |p| <= |s| && s[i..i + |p|] == p
  }

  /** The first index at or after i at which p occurs in s, or -1. */
  function IndexOfFrom(s: string, p: string, i: nat): (r: int)
    ensures r == -1 || (i <= r && OccursAt(s, p, r))
    ensures forall j :: i <= j && (r == -1 || j < r) ==> !OccursAt(s, p, j)
    decreases |s| - i
  {
    if i + |p| > |s| then -1
    else if s[i..i + |p|] == p then i
    else IndexOfFrom(s, p, i + 1)
  }

  /** String.prototype.indexOf: the first index at which p occurs, or -1. */
  function IndexOf(s: string, p: string): (r: int)
    ensures r == -1 || OccursAt(s, p, r)
    ensures forall j :: 0 <= j && (r == -1 || j < r) ==> !OccursAt(s, p, j)
  {
    IndexOfFrom(s, p, 0)
  }

  /** String.prototype.includes. */
  predicate Includes(s: string, p: string) {
    IndexOf(s, p) != -1
  }

  /** includes holds exactly when p occurs somewhere in s. */
  lemma IncludesIffOccurs(s: string, p: string)
    ensures Includes(s, p) <==> exists i :: OccursAt(s, p, i)
  {
    if Includes(s, p) {
      assert OccursAt(s, p, IndexOf(s, p));
    }
  }

  /** startsWith holds exactly when p occurs at index 0 of s. */
  lemma StartsWithIffOccursAtZero(s: string, p: string)
    ensures StartsWith(s, p) <==> OccursAt(s, p, 0)
  {
    if OccursAt(s, p, 0) {
      assert s[..|p|] == s[0..|p|];
    }
  }

  lemma IncludesWhereOccurs(s: string, p: string, i: int)
    requires OccursAt(s, p, i)
    ensures Includes(s, p)
  {
  }

  /** Text found in x is still found once more text follows x. */
  lemma IncludesInPrefix(x: string, b: string, y: string)
    requires Includes(x, y)
    ensures Includes(x + b, y)
  {
    var k := IndexOf(x, y);
    assert (x + b)[k..k + |y|] == x[k..k + |y|];
    IncludesWhereOccurs(x + b, y, k);
  }

  /** Text found inside a found piece of s is found in s. */
  lemma IncludesTransitive(s: string, x: string, y: string)
    requires Includes(s, x) && Includes(x, y)
    ensures Includes(s, y)
  {
    var k, m := IndexOf(s, x), IndexOf(x, y);
    assert s[k..k + |x|] == x && x[m..m + |y|] == y;
    assert s[k + m..k + m + |y|] == s[k..k + |x|][m..m + |y|];
    IncludesWhereOccurs(s, y, k + m);
  }

  /** Text found in x is still found once x is surrounded by more text. */
  lemma IncludesInLonger(a: string, x: string, b: string, y: string)
    requires Includes(x, y)
    ensures Includes(a + x + b, y)
  {
    var k := IndexOf(x, y);
    assert (a + x + b)[|a| + k..|a| + k + |y|] == x[k..k + |y|];
    IncludesWhereOccurs(a + x + b, y, |a| + k);
  }

  /** The last index at or before k at which p occurs in s, or -1. */
  function LastIndexOfFrom(s: string, p: string, k: int): (r: int)
    ensures r == -1 || (r <= k && OccursAt(s, p, r))
    ensures forall j :: r < j <= k ==> !OccursAt(s, p, j)
    decreases k + 1
  {
    if k < 0 then -1
    else if OccursAt(s, p, k) then k
    else LastIndexOfFrom(s, p, k - 1)
  }

  /** String.prototype.lastIndexOf without a position argument: the search
      starts from the end of s. */
  function LastIndexOf(s: string, p: string): (r: int)
    ensures r == -1 || OccursAt(s, p, r)
    ensures forall j :: r < j ==> !OccursAt(s, p, j)
  {
    LastIndexOfFrom(s, p, |s| - |p|)
  }

  /** A string that ends with p has its last occurrence of p there. */
  lemma LastIndexOfAtEnd(s: string, p: string)
    requires |p| <= |s| && s[|s| - |p|..] == p
    ensures LastIndexOf(s, p) == |s| - |p|
  {
    assert OccursAt(s, p, |s| - |p|);
  }

  function Clamp(i: int, n: nat): (r: nat)
    ensures r <= n
  {
    if i < 0 then 0 else if i > n then n else i
  }

  /** String.prototype.substring: both ends are clamped to [0, |s|] and are
      swapped when start comes after end. */
  function Substring(s: string, start: int, end: int): (r: string)
    ensures |r| <= |s|
    ensures 0 <= start <= end <= |s| ==> r == s[start..end]
    ensures 0 <= end <= start <= |s| ==> r == s[end..start]
    ensures end < 0 <= start <= |s| ==> r == s[..start]
  {
    var a, b := Clamp(start, |s|), Clamp(end, |s|);
    if a <= b then s[a..b] else s[b..a]
  }

  /** s without its leading white space. */
  function TrimStart(s: string): (r: string)
    ensures |r| <= |s|
    ensures r == [] || !IsWhite(r[0])
  {
    if s != [] && IsWhite(s[0]) then TrimStart(s[1..]) else s
  }

  /** s without its trailing white space. */
  function TrimEnd(s: string): (r: string)
    ensures |r| <= |s|
    ensures r == [] || !IsWhite(r[|r| - 1])
  {
    if s != [] && IsWhite(s[|s| - 1]) then TrimEnd(s[..|s| - 1]) else s
  }

  /** String.prototype.trim: s without white space at either end. */
  function Trim(s: string): (r: string)
    ensures |r| <= |s|
    ensures r == [] || (!IsWhite(r[0]) && !IsWhite(r[|r| - 1]))
  {
    TrimEndDropsWhite(TrimStart(s));
    TrimEnd(TrimStart(s))
  }

  /** TrimStart keeps a suffix of s and drops only white space. */
  lemma {:induction false} TrimStartDropsWhite(s: string)
    ensures TrimStart(s) == s[|s| - |TrimStart(s)|..]
    ensures forall i :: 0 <= i < |s| - |TrimStart(s)| ==> IsWhite(s[i])
  {
    if s != [] && IsWhite(s[0]) {
      TrimStartDropsWhite(s[1..]);
    }
  }

  /** TrimEnd keeps a prefix of s and drops only white space. */
  lemma {:induction false} TrimEndDropsWhite(s: string)
    ensures TrimEnd(s) == s[..|TrimEnd(s)|]
    ensures forall i :: |TrimEnd(s)| <= i < |s| ==> IsWhite(s[i])
  {
    if s != [] && IsWhite(s[|s| - 1]) {
      TrimEndDropsWhite(s[..|s| - 1]);
    }
  }

  /** What trim keeps is one slice of s, and all it removes is white space. */
  lemma TrimKeepsSlice(s: string)
    ensures exists i ::
              && OccursAt(s, Trim(s), i)
              && (forall j :: 0 <= j < i ==> IsWhite(s[j]))
              && (forall j :: i + |Trim(s)| <= j < |s| ==> IsWhite(s[j]))
  {
    var t := TrimStart(s);
    var r := TrimEnd(t);
    TrimStartDropsWhite(s);
    TrimEndDropsWhite(t);
    var i := |s| - |t|;
    assert OccursAt(s, r, i) by {
      assert s[i..i + |r|] == t[..|r|];
    }
    assert forall j :: i + |r| <= j < |s| ==> IsWhite(s[j]) by {
      forall j | i + |r| <= j < |s|
        ensures IsWhite(s[j])
      {
        assert s[j] == t[j - i];
      }
    }
    assert r == Trim(s);
  }

  /** Trimming leaves alone a string that has no white space at either end. */
  lemma TrimUnchanged(s: string)
    requires s == [] || (!IsWhite(s[0]) && !IsWhite(s[|s| - 1]))
    ensures Trim(s) == s
  {
  }

  /** Array.prototype.map. */
  function MapSeq<A, B>(xs: seq<A>, f: A -> B): (r: seq<B>)
    ensures |r| == |xs| && forall i :: 0 <= i < |xs| ==> r[i] == f(xs[i])
  {
    seq(|xs|, i requires 0 <= i < |xs| => f(xs[i]))
  }

  /** Array.prototype.join: the parts, with sep between neighbouring parts. */
  function Join(parts: seq<string>, sep: string): string
  {
    if |parts| == 0 then ""
    else if |parts| == 1 then parts[0]
    else parts[0] + sep + Join(parts[1..], sep)
  }

  /** The string ECMAScript's join algorithm has built after visiting the
      first k parts: it appends sep before every part but the first. */
  function JoinFirst(parts: seq<string>, sep: string, k: nat): string
    requires k <= |parts|
  {
    if k == 0 then ""
    else if k == 1 then parts[0]
    else JoinFirst(parts, sep, k - 1) + sep + parts[k - 1]
  }

  lemma {:induction false} JoinSnoc(xs: seq<string>, x: string, sep: string)
    ensures Join(xs + [x], sep) == if xs == [] then x else Join(xs, sep) + sep + x
    decreases |xs|
  {
    if |xs| >= 2 {
      assert (xs + [x])[1..] == xs[1..] + [x];
      JoinSnoc(xs[1..], x, sep);
    } else if |xs| == 1 {
      assert (xs + [x])[1..] == [x];
    }
  }

  /** Join agrees with the left-to-right accumulation of ECMAScript's
      Array.prototype.join algorithm. */
  lemma {:induction false} JoinIsAccumulation(parts: seq<string>, sep: string)
    ensures Join(parts, sep) == JoinFirst(parts, sep, |parts|)
  {
    JoinFirstIsJoinOfPrefix(parts, sep, |parts|);
    assert parts[..|parts|] == parts;
  }

  lemma {:induction false} JoinFirstIsJoinOfPrefix(parts: seq<string>, sep: string, k: nat)
    requires k <= |parts|
    ensures JoinFirst(parts, sep, k) == Join(parts[..k], sep)
  {
    if k >= 2 {
      JoinFirstIsJoinOfPrefix(parts, sep, k - 1);
      JoinSnoc(parts[..k - 1], parts[k - 1], sep);
      assert parts[..k - 1] + [parts[k - 1]] == parts[..k];
    }
  }

  /** Every part is found in the joined string. */
  lemma {:induction false} JoinIncludesEach(parts: seq<string>, sep: string, i: nat)
    requires i < |parts|
    ensures Includes(Join(parts, sep), parts[i])
  {
    if |parts| == 1 {
      IncludesWhereOccurs(parts[0], parts[0], 0);
    } else if i == 0 {
      var rest := sep + Join(parts[1..], sep);
      assert Join(parts, sep) == parts[0] + rest;
      assert (parts[0] + rest)[0..|parts[0]|] == parts[0];
      IncludesWhereOccurs(Join(parts, sep), parts[0], 0);
    } else {
      JoinIncludesEach(parts[1..], sep, i - 1);
      IncludesInLonger(parts[0] + sep, Join(parts[1..], sep), "", parts[i]);
      assert Join(parts, sep) == parts[0] + sep + Join(parts[1..], sep) + "";
    }
  }

  /** Text found in one part is found in the joined string. */
  lemma JoinIncludesInPart(parts: seq<string>, sep: string, i: nat, y: string)
    requires i < |parts| && Includes(parts[i], y)
    ensures Includes(Join(parts, sep), y)
  {
    JoinIncludesEach(parts, sep, i);
    IncludesTransitive(Join(parts, sep), parts[i], y);
  }

  function DigitChar(d: nat): char
    requires d < 10
  {
    "0123456789"[d]
  }

  function NatToString(n: nat): (r: string)
    ensures |r| >= 1
  {
    if n < 10 then [DigitChar(n)] else NatToString(n / 10) + [DigitChar(n % 10)]
  }

  /** The decimal text JavaScript gives an integral number. */
  function IntToString(i: int): (r: string)
    ensures |r| >= 1
  {
    if i < 0 then "-" + NatToString(-i) else NatToString(i)
  }
}
