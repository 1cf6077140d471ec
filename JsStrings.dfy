/**
 * JavaScript strings and the three string built-ins the signup handler uses:
 * `String.prototype.trim`, `String.prototype.toLowerCase` and
 * `String.prototype.slice(0, n)`. A JavaScript string is a sequence of UTF-16
 * code units, and `length`, `slice` and `trim` all count code units.
 */
module JsStrings {

  /** One UTF-16 code unit. */
  newtype CodeUnit = x: int | 0 <= x < 0x1_0000

  type JsString = seq<CodeUnit>

  /** The code unit of `'@'`. */
  const At: CodeUnit := 0x40

  function UnitOf(c: char): CodeUnit
  {
    if c as int < 0x1_0000 then c as int as CodeUnit else 0xFFFD
  }

  /** The code units of a string literal of the source (all of them are ASCII). */
  function Lit(s: string): JsString
  {
    seq(|s|, i requires 0 <= i < |s| => UnitOf(s[i]))
  }

  /**
   * The code units `trim` removes: ECMAScript's WhiteSpace (tab, vertical
   * tab, form feed, space, no-break space, byte order mark and the other
   * space separators) and LineTerminator (line feed, carriage return, line
   * and paragraph separators).
   */
  predicate IsWhiteSpace(u: CodeUnit)
  {
    || u == 0x09 || u == 0x0A || u == 0x0B || u == 0x0C || u == 0x0D
    || u == 0x20 || u == 0xA0 || u == 0x1680
    || (0x2000 <= u <= 0x200A)
    || u == 0x2028 || u == 0x2029 || u == 0x202F || u == 0x205F
    || u == 0x3000 || u == 0xFEFF
  }

  predicate AllWhiteSpace(s: JsString)
  {
    forall k :: 0 <= k < |s| ==> IsWhiteSpace(s[k])
  }

  predicate IsUpperAscii(u: CodeUnit)
  {
    0x41 <= u <= 0x5A
  }

  function LowerUnit(u: CodeUnit): (r: CodeUnit)
    ensures !IsUpperAscii(r)
    ensures IsWhiteSpace(r) <==> IsWhiteSpace(u)
    ensures r == At <==> u == At
  {
    if IsUpperAscii(u) then u + 0x20 else u
  }

  /** `s.toLowerCase()`, over the ASCII letters. */
  function ToLower(s: JsString): (r: JsString)
    ensures |r| == |s|
    ensures forall i :: 0 <= i < |r| ==> !IsUpperAscii(r[i]) && (IsWhiteSpace(r[i]) <==> IsWhiteSpace(s[i]))
  {
    seq(|s|, i requires 0 <= i < |s| => LowerUnit(s[i]))
  }

  /** The first index at or after `k` whose code unit is not whitespace (or `|s|`). */
  function SkipWhiteSpace(s: JsString, k: nat): (i: nat)
    requires k <= |s|
    ensures k <= i <= |s|
    ensures forall m :: k <= m < i ==> IsWhiteSpace(s[m])
    ensures i < |s| ==> !IsWhiteSpace(s[i])
    decreases |s| - k
  {
    if k < |s| && IsWhiteSpace(s[k]) then SkipWhiteSpace(s, k + 1) else k
  }

  /** The end of `s[lo..j]` once its trailing whitespace is dropped. */
  function DropWhiteSpace(s: JsString, lo: nat, j: nat): (e: nat)
    requires lo <= j <= |s|
    ensures lo <= e <= j
    ensures forall m :: e <= m < j ==> IsWhiteSpace(s[m])
    ensures lo < e ==> !IsWhiteSpace(s[e - 1])
    decreases j
  {
    if lo < j && IsWhiteSpace(s[j - 1]) then DropWhiteSpace(s, lo, j - 1) else j
  }

  /** Where `s.trim()` starts: the whitespace before it is what `trimStart` cuts. */
  function TrimStartIndex(s: JsString): nat
  {
    SkipWhiteSpace(s, 0)
  }

  /** Where `s.trim()` ends: the whitespace after it is what `trimEnd` cuts. */
  function TrimEndIndex(s: JsString): (j: nat)
    ensures TrimStartIndex(s) <= j <= |s|
  {
    DropWhiteSpace(s, TrimStartIndex(s), |s|)
  }

  /**
   * `s.trim()`: the piece of `s` between its leading and its trailing
   * whitespace. It starts and ends with a code unit that is not whitespace,
   * and it is empty exactly when `s` is all whitespace.
   */
  function Trim(s: JsString): (r: JsString)
    ensures r == [] || (!IsWhiteSpace(r[0]) && !IsWhiteSpace(r[|r| - 1]))
    ensures r == [] <==> AllWhiteSpace(s)
  {
    var i, j := TrimStartIndex(s), TrimEndIndex(s);
    assert i < j ==> s[i..j][0] == s[i] && s[i..j][j - i - 1] == s[j - 1];
    s[i..j]
  }

  /** `s.slice(0, n)` for a non-negative `n`: the first `n` code units, or all of `s` when it is shorter. */
  function SlicePrefix(s: JsString, n: nat): (r: JsString)
    ensures r <= s
    ensures |r| == if n < |s| then n else |s|
  {
    if n < |s| then s[..n] else s
  }

  /**
   * `trim` is determined by what it removes: whatever sits between a
   * whitespace prefix and a whitespace suffix, and does not itself start or
   * end with whitespace, is what `trim` returns.
   */
  lemma TrimUnique(lead: JsString, core: JsString, trail: JsString)
    requires AllWhiteSpace(lead) && AllWhiteSpace(trail)
    requires core == [] || (!IsWhiteSpace(core[0]) && !IsWhiteSpace(core[|core| - 1]))
    ensures Trim(lead + core + trail) == core
  {
    var s := lead + core + trail;
    if core == [] {
      assert AllWhiteSpace(s) by {
        forall k | 0 <= k < |s| ensures IsWhiteSpace(s[k]) {
          if k < |lead| { assert s[k] == lead[k]; } else { assert s[k] == trail[k - |lead|]; }
        }
      }
    } else {
      var i := TrimStartIndex(s);
      assert s[|lead|] == core[0];
      assert i == |lead|;
      var j := TrimEndIndex(s);
      var e := |lead| + |core|;
      assert s[e - 1] == core[|core| - 1];
      assert j == e;
      assert s[i..j] == core;
    }
  }

  lemma TrimIdempotent(s: JsString)
    ensures Trim(Trim(s)) == Trim(s)
  {
    var t := Trim(s);
    assert [] + t + [] == t;
    TrimUnique([], t, []);
  }

  /** Where the whitespace is decides where `trim` cuts. */
  lemma {:induction false} SkipSameWhiteSpace(s: JsString, t: JsString, k: nat)
    requires |s| == |t| && k <= |s|
    requires forall m :: 0 <= m < |s| ==> (IsWhiteSpace(s[m]) <==> IsWhiteSpace(t[m]))
    ensures SkipWhiteSpace(s, k) == SkipWhiteSpace(t, k)
    decreases |s| - k
  {
    if k < |s| && IsWhiteSpace(s[k]) {
      SkipSameWhiteSpace(s, t, k + 1);
    }
  }

  lemma {:induction false} DropSameWhiteSpace(s: JsString, t: JsString, lo: nat, j: nat)
    requires |s| == |t| && lo <= j <= |s|
    requires forall m :: 0 <= m < |s| ==> (IsWhiteSpace(s[m]) <==> IsWhiteSpace(t[m]))
    ensures DropWhiteSpace(s, lo, j) == DropWhiteSpace(t, lo, j)
    decreases j
  {
    if lo < j && IsWhiteSpace(s[j - 1]) {
      DropSameWhiteSpace(s, t, lo, j - 1);
    }
  }

  /**
   * Lower-casing and trimming commute, so `s.trim().toLowerCase()` and
   * `s.toLowerCase().trim()` are the same string.
   */
  lemma ToLowerTrimCommute(s: JsString)
    ensures ToLower(Trim(s)) == Trim(ToLower(s))
  {
    var t := ToLower(s);
    assert forall m :: 0 <= m < |s| ==> t[m] == LowerUnit(s[m]);
    SkipSameWhiteSpace(s, t, 0);
    var i := TrimStartIndex(s);
    DropSameWhiteSpace(s, t, i, |s|);
    var j := TrimEndIndex(s);
    assert Trim(t) == t[i..j];
    ToLowerSlice(s, i, j);
  }

  lemma ToLowerSlice(s: JsString, i: nat, j: nat)
    requires i <= j <= |s|
    ensures ToLower(s[i..j]) == ToLower(s)[i..j]
  {
  }

  lemma ToLowerIdempotent(s: JsString)
    ensures ToLower(ToLower(s)) == ToLower(s)
  {
  }

  /** Neither trimming nor lower-casing adds or removes an `'@'`. */
  lemma TrimKeepsAt(s: JsString)
    ensures At in Trim(s) <==> At in s
  {
    var i, j := TrimStartIndex(s), TrimEndIndex(s);
    if At in s {
      var k :| 0 <= k < |s| && s[k] == At;
      assert i <= k < j;
      assert Trim(s)[k - i] == At;
    }
  }

  lemma ToLowerKeepsAt(s: JsString)
    ensures At in ToLower(s) <==> At in s
  {
    if At in ToLower(s) {
      var k :| 0 <= k < |s| && ToLower(s)[k] == At;
      assert s[k] == At;
    }
    if At in s {
      var k :| 0 <= k < |s| && s[k] == At;
      assert ToLower(s)[k] == At;
    }
  }
}
