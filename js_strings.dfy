/**
 * The few JavaScript string operations the core relies on: `String.prototype.trim`
 * (the TrimString operation of ECMA-262, both ends), `String.prototype.includes`
 * and the `length` of a string, which counts UTF-16 code units.
 */
module JsStrings {

  /** An argument that TypeScript types as `string` but that a caller may pass as anything. */
  datatype Arg = StringArg(s: string) | NonStringArg

  /** ECMA-262 WhiteSpace (TAB, VT, FF, ZWNBSP, and the Zs category) and LineTerminator (LF, CR, LS, PS). */
  predicate IsWhiteSpace(c: char) {
    || c == '\t' || c == '\U{000B}' || c == '\U{000C}' || c == ' ' || c == '\U{00A0}'
    || c == '\U{FEFF}' || c == '\U{1680}' || ('\U{2000}' <= c <= '\U{200A}')
    || c == '\U{202F}' || c == '\U{205F}' || c == '\U{3000}'
    || c == '\n' || c == '\r' || c == '\U{2028}' || c == '\U{2029}'
  }

  predicate AllWhiteSpace(s: string) {
    forall i :: 0 <= i < |s| ==> IsWhiteSpace(s[i])
  }

  /** Neither end of `t` is white space: what `trim` can return. */
  predicate IsTrimmed(t: string) {
    t == [] || (!IsWhiteSpace(t[0]) && !IsWhiteSpace(t[|t| - 1]))
  }

  /** `s` with its leading white space removed: the longest suffix not starting with white space. */
  function TrimStart(s: string): (r: string)
    ensures |r| <= |s| && r == s[|s| - |r|..]
    ensures r != [] ==> !IsWhiteSpace(r[0])
  {
    if s != [] && IsWhiteSpace(s[0]) then TrimStart(s[1..]) else s
  }

  /** Everything `TrimStart` cuts is white space. */
  lemma {:induction false} TrimStartCutsWhiteSpace(s: string)
    ensures AllWhiteSpace(s[..|s| - |TrimStart(s)|])
  {
    if s != [] && IsWhiteSpace(s[0]) {
      TrimStartCutsWhiteSpace(s[1..]);
      assert s[..|s| - |TrimStart(s)|] == [s[0]] + s[1..][..|s[1..]| - |TrimStart(s[1..])|];
    }
  }

  /** `s` with its trailing white space removed: the longest prefix not ending with white space. */
  function TrimEnd(s: string): (r: string)
    ensures |r| <= |s| && r == s[..|r|]
    ensures r != [] ==> !IsWhiteSpace(r[|r| - 1])
  {
    if s != [] && IsWhiteSpace(s[|s| - 1]) then TrimEnd(s[..|s| - 1]) else s
  }

  /** Everything `TrimEnd` cuts is white space. */
  lemma {:induction false} TrimEndCutsWhiteSpace(s: string)
    ensures AllWhiteSpace(s[|TrimEnd(s)|..])
  {
    if s != [] && IsWhiteSpace(s[|s| - 1]) {
      var init := s[..|s| - 1];
      TrimEndCutsWhiteSpace(init);
      assert s[|TrimEnd(s)|..] == init[|TrimEnd(init)|..] + [s[|s| - 1]];
    }
  }

  /** `String.prototype.trim`: white space removed from both ends. */
  function Trim(s: string): (r: string)
    ensures IsTrimmed(r) && |r| <= |s|
  {
    TrimEnd(TrimStart(s))
  }

  /** What `trim` cuts is white space on either side, and nothing inside is touched. */
  lemma TrimIsSlice(s: string)
    ensures exists i :: 0 <= i <= |s| - |Trim(s)| && s[i..i + |Trim(s)|] == Trim(s)
                        && AllWhiteSpace(s[..i]) && AllWhiteSpace(s[i + |Trim(s)|..])
  {
    var a := TrimStart(s);
    var r := TrimEnd(a);
    var i := |s| - |a|;
    TrimStartCutsWhiteSpace(s);
    TrimEndCutsWhiteSpace(a);
    assert s[i..i + |r|] == r;
    assert s[i + |r|..] == a[|r|..];
  }

  lemma {:induction false} TrimStartOfWhitePrefix(p: string, rest: string)
    requires AllWhiteSpace(p)
    requires rest == [] || !IsWhiteSpace(rest[0])
    ensures TrimStart(p + rest) == rest
  {
    if p != [] {
      assert (p + rest)[1..] == p[1..] + rest;
      TrimStartOfWhitePrefix(p[1..], rest);
    } else {
      assert p + rest == rest;
    }
  }

  lemma {:induction false} TrimEndOfWhiteSuffix(rest: string, q: string)
    requires AllWhiteSpace(q)
    requires rest == [] || !IsWhiteSpace(rest[|rest| - 1])
    ensures TrimEnd(rest + q) == rest
  {
    if q != [] {
      assert (rest + q)[..|rest + q| - 1] == rest + q[..|q| - 1];
      TrimEndOfWhiteSuffix(rest, q[..|q| - 1]);
    } else {
      assert rest + q == rest;
    }
  }

  /**
   * The reference characterisation of `trim`: whatever white space surrounds a trimmed
   * string, trimming gives that string back, interior white space included.
   */
  lemma TrimOfPadded(p: string, t: string, q: string)
    requires AllWhiteSpace(p) && AllWhiteSpace(q) && IsTrimmed(t)
    ensures Trim(p + t + q) == t
  {
    if t == [] {
      assert p + t + q == p + q;
      TrimStartOfWhitePrefix(p + q, []);
      assert p + q + [] == p + q;
      TrimEndOfWhiteSuffix([], []);
    } else {
      assert p + t + q == p + (t + q);
      TrimStartOfWhitePrefix(p, t + q);
      TrimEndOfWhiteSuffix(t, q);
    }
  }

  /** Trimming twice is trimming once. */
  lemma TrimIdempotent(s: string)
    ensures Trim(Trim(s)) == Trim(s)
  {
    var t := Trim(s);
    assert [] + t + [] == t;
    TrimOfPadded([], t, []);
  }

  /** `trim` gives the empty string exactly on all-white-space input. */
  lemma TrimEmptyIff(s: string)
    ensures Trim(s) == [] <==> AllWhiteSpace(s)
  {
    if AllWhiteSpace(s) {
      assert s + [] + [] == s;
      TrimOfPadded(s, [], []);
    }
    TrimIsSlice(s);
  }

  /** A non-blank string: one whose `trim()` has positive length. */
  predicate IsNonBlank(a: Arg) {
    a.StringArg? && Trim(a.s) != []
  }

  /** A non-blank argument is a string with at least one character that is not white space. */
  lemma {:induction false} NonBlankIff(a: Arg)
    ensures IsNonBlank(a) <==> a.StringArg? && !AllWhiteSpace(a.s)
  {
    if a.StringArg? {
      TrimEmptyIff(a.s);
    }
  }

  /** `String.prototype.includes`: `sub` occurs somewhere in `s` (the empty string occurs everywhere). */
  predicate Contains(s: string, sub: string)
    ensures Contains(s, sub) ==> |sub| <= |s|
    ensures sub == [] ==> Contains(s, sub)
    decreases |s|
  {
    |sub| <= |s| && (s[..|sub|] == sub || Contains(s[1..], sub))
  }

  /** `sub` occurs in `s` starting at index `i`. */
  predicate OccursAt(s: string, sub: string, i: int) {
    0 <= i <= |s| - |sub| && s[i..i + |sub|] == sub
  }

  /** `Contains` is exactly "occurs at some index". */
  lemma {:induction false} ContainsIff(s: string, sub: string)
    ensures Contains(s, sub) <==> exists i :: OccursAt(s, sub, i)
  {
    if |sub| <= |s| && s[..|sub|] == sub {
      assert OccursAt(s, sub, 0);
    } else if |sub| <= |s| {
      ContainsIff(s[1..], sub);
      if Contains(s[1..], sub) {
        var i :| OccursAt(s[1..], sub, i);
        assert s[i + 1..i + 1 + |sub|] == s[1..][i..i + |sub|];
        assert OccursAt(s, sub, i + 1);
      }
      if exists i :: OccursAt(s, sub, i) {
        var i :| OccursAt(s, sub, i);
        assert i != 0;
        assert s[1..][i - 1..i - 1 + |sub|] == s[i..i + |sub|];
        assert OccursAt(s[1..], sub, i - 1);
      }
    }
  }

  /** The number of UTF-16 code units that encode `c`. */
  function CodeUnits(c: char): nat {
    if c as int > 0xFFFF then 2 else 1
  }

  /** JavaScript's `length` of a string: its UTF-16 code units. */
  function Utf16Length(s: string): (n: nat)
    ensures |s| <= n <= 2 * |s|
  {
    if s == [] then 0 else CodeUnits(s[0]) + Utf16Length(s[1..])
  }
}
