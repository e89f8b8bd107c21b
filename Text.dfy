/** The JavaScript string operations the components rely on:
    String.prototype.trim, toLowerCase, includes and Array.prototype.join,
    and Number.prototype.toString on the non-negative integers that
    Date.now() produces. */
module Text {

  /** The characters String.prototype.trim strips: ECMAScript WhiteSpace
      (TAB, VT, FF, SP, NBSP, ZWNBSP and the Zs category) and
      LineTerminator (LF, CR, LS, PS). */
  predicate IsSpace(c: char) {
    || c == '\t' || c == '\n' || c == '\U{000B}' || c == '\U{000C}' || c == '\r'
    || c == ' ' || c == '\U{00A0}' || c == '\U{1680}'
    || ('\U{2000}' <= c <= '\U{200A}')
    || c == '\U{2028}' || c == '\U{2029}' || c == '\U{202F}' || c == '\U{205F}'
    || c == '\U{3000}' || c == '\U{FEFF}'
  }

  /** No white space at either end. */
  predicate IsTrimmed(s: string) {
    s == [] || (!IsSpace(s[0]) && !IsSpace(s[|s| - 1]))
  }

  /** String.prototype.trim: white space is dropped from the front, then
      from the back, until neither end is white space. */
  function Trim(s: string): (r: string)
    ensures IsTrimmed(r)
    ensures r == [] <==> forall i :: 0 <= i < |s| ==> IsSpace(s[i])
    decreases |s|
  {
    if s != [] && IsSpace(s[0]) then
      var r := Trim(s[1..]);
      assert forall i :: 1 <= i < |s| ==> s[i] == s[1..][i - 1];
      r
    else if s != [] && IsSpace(s[|s| - 1]) then
      var r := Trim(s[..|s| - 1]);
      assert forall i :: 0 <= i < |s| - 1 ==> s[i] == s[..|s| - 1][i];
      r
    else s
  }

  /** `t` is the slice of `s` that starts at position `j`. */
  predicate OccursAt(s: string, t: string, j: nat) {
    j + |t| <= |s| && s[j..j + |t|] == t
  }

  /** `!s.trim()`: the string is empty once trimmed. */
  predicate IsBlank(s: string) {
    Trim(s) == []
  }

  /** The characters String.prototype.toLowerCase changes in this model:
      ASCII capitals and the Latin-1 capitals (U+00C0 to U+00DE without
      the multiplication sign U+00D7), which cover the Spanish alphabet. */
  predicate IsUpper(c: char) {
    ('A' <= c <= 'Z') || ('\U{00C0}' <= c <= '\U{00DE}' && c != '\U{00D7}')
  }

  function LowerChar(c: char): char {
    if IsUpper(c) then (c as int + 32) as char else c
  }

  /** String.prototype.toLowerCase restricted to the capitals above. */
  function ToLower(s: string): (r: string)
    ensures |r| == |s|
    ensures forall i :: 0 <= i < |r| ==> !IsUpper(r[i])
    ensures forall i :: 0 <= i < |s| && !IsUpper(s[i]) ==> r[i] == s[i]
  {
    seq(|s|, i requires 0 <= i < |s| => LowerChar(s[i]))
  }

  /** Lower-casing works character by character, so it distributes over concatenation. */
  lemma ToLowerAppend(a: string, b: string)
    ensures ToLower(a + b) == ToLower(a) + ToLower(b)
  {
    assert forall i :: 0 <= i < |a + b| ==> ToLower(a + b)[i] == (ToLower(a) + ToLower(b))[i];
  }

  /** `t` occurs in `s` at position `i`, checked from `t[k]` onwards. */
  function MatchFrom(s: string, t: string, i: nat, k: nat): bool
    decreases |t| - k
  {
    if k >= |t| then true
    else if i + k >= |s| then false
    else s[i + k] == t[k] && MatchFrom(s, t, i, k + 1)
  }

  /** `t` occurs in `s` at some position from `i` onwards. */
  function IncludesFrom(s: string, t: string, i: nat): bool
    decreases |s| - i
  {
    if MatchFrom(s, t, i, 0) then true
    else if i >= |s| then false
    else IncludesFrom(s, t, i + 1)
  }

  /** String.prototype.includes: `t` is a substring of `s`. */
  predicate Includes(s: string, t: string) {
    IncludesFrom(s, t, 0)
  }

  lemma {:induction false} MatchFromIff(s: string, t: string, i: nat, k: nat)
    requires k <= |t| && i + k <= |s|
    ensures MatchFrom(s, t, i, k) <==> i + |t| <= |s| && s[i + k..i + |t|] == t[k..]
    decreases |t| - k
  {
    if k < |t| && i + k < |s| {
      MatchFromIff(s, t, i, k + 1);
      if i + |t| <= |s| {
        assert s[i + k..i + |t|] == [s[i + k]] + s[i + k + 1..i + |t|];
        assert t[k..] == [t[k]] + t[k + 1..];
      }
    }
  }

  lemma {:induction false} IncludesFromIff(s: string, t: string, i: nat)
    requires i <= |s|
    ensures IncludesFrom(s, t, i) <==> exists j :: i <= j && OccursAt(s, t, j)
    decreases |s| - i
  {
    MatchFromIff(s, t, i, 0);
    assert MatchFrom(s, t, i, 0) <==> OccursAt(s, t, i);
    if i < |s| {
      IncludesFromIff(s, t, i + 1);
      if exists j :: i <= j && OccursAt(s, t, j) {
        var j :| i <= j && OccursAt(s, t, j);
        if j > i {
          assert IncludesFrom(s, t, i + 1);
        }
      }
    } else {
      if exists j :: i <= j && OccursAt(s, t, j) {
        var j :| i <= j && OccursAt(s, t, j);
        assert j == i;
      }
    }
  }

  /** `Includes` holds exactly when `t` is a slice of `s`. */
  lemma IncludesIff(s: string, t: string)
    ensures Includes(s, t) <==> exists j :: OccursAt(s, t, j)
  {
    IncludesFromIff(s, t, 0);
  }

  /** Every string includes the empty string. */
  lemma IncludesEmpty(s: string)
    ensures Includes(s, "")
  {
    IncludesIff(s, "");
    assert OccursAt(s, "", 0);
  }

  /** A substring of `b` is a substring of any string that contains `b`. */
  lemma IncludesInContext(a: string, b: string, c: string, t: string)
    requires Includes(b, t)
    ensures Includes(a + b + c, t)
  {
    IncludesIff(b, t);
    var j: nat :| OccursAt(b, t, j);
    var s := a + b + c;
    assert s[|a| + j..|a| + j + |t|] == b[j..j + |t|];
    assert OccursAt(s, t, |a| + j);
    IncludesIff(s, t);
  }

  /** A string that lacks one of the characters of `t` does not include `t`. */
  lemma AbsentCharExcludes(s: string, t: string, c: char)
    requires c in t && c !in s
    ensures !Includes(s, t)
  {
    IncludesIff(s, t);
  }

  /** A string includes itself. */
  lemma IncludesSelf(s: string)
    ensures Includes(s, s)
  {
    IncludesIff(s, s);
    assert OccursAt(s, s, 0);
  }

  /** Array.prototype.join: the parts in order with `sep` between them. */
  function Join(parts: seq<string>, sep: string): (r: string)
    decreases |parts|
  {
    if |parts| == 0 then ""
    else if |parts| == 1 then parts[0]
    else parts[0] + sep + Join(parts[1..], sep)
  }

  /** Each part is found verbatim in the joined string. */
  lemma {:induction false} JoinEmbedsParts(parts: seq<string>, sep: string, i: nat)
    requires i < |parts|
    ensures Includes(Join(parts, sep), parts[i])
    decreases |parts|
  {
    if |parts| == 1 {
      IncludesSelf(parts[0]);
    } else if i == 0 {
      IncludesSelf(parts[0]);
      IncludesInContext("", parts[0], sep + Join(parts[1..], sep), parts[0]);
      assert "" + parts[0] + (sep + Join(parts[1..], sep)) == Join(parts, sep);
    } else {
      JoinEmbedsParts(parts[1..], sep, i - 1);
      IncludesInContext(parts[0] + sep, Join(parts[1..], sep), "", parts[i]);
      assert parts[0] + sep + Join(parts[1..], sep) + "" == Join(parts, sep);
    }
  }

  predicate IsDigit(c: char) {
    '0' <= c <= '9'
  }

  function DigitChar(d: nat): char
    requires d < 10
  {
    ('0' as int + d) as char
  }

  /** Number.prototype.toString on a non-negative integer: its decimal
      digits, most significant first, without leading zeros. */
  function Decimal(n: nat): (r: string)
    ensures r != [] && forall i :: 0 <= i < |r| ==> IsDigit(r[i])
    ensures |r| > 1 ==> r[0] != '0'
  {
    if n < 10 then [DigitChar(n)] else Decimal(n / 10) + [DigitChar(n % 10)]
  }

  /** The value of a string of decimal digits. */
  function DecimalValue(s: string): nat
    requires forall i :: 0 <= i < |s| ==> IsDigit(s[i])
  {
    if s == [] then 0
    else
      assert IsDigit(s[|s| - 1]);
      DecimalValue(s[..|s| - 1]) * 10 + (s[|s| - 1] as int - '0' as int)
  }

  /** Reading back the rendered digits gives the number. */
  lemma {:induction false} DecimalRoundTrip(n: nat)
    ensures DecimalValue(Decimal(n)) == n
  {
    if n >= 10 {
      DecimalRoundTrip(n / 10);
      var r := Decimal(n);
      assert r[..|r| - 1] == Decimal(n / 10);
    }
  }
}
