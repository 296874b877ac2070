/** What the forms do to raw input before the ledger sees it: JavaScript's
    rounding and ceiling, the `parse(x) || 0` idiom and `String.prototype.trim`.
    Parsing itself (`parseFloat`, `parseInt`) is outside the model: a parsed
    value arrives as an `Option`, with `None` standing for NaN. */
module FormInput {
  import opened Collections

  /** `Math.round`: the nearest integer, halves rounded up. */
  function JsRound(x: real): (n: int)
    ensures n as real - 0.5 <= x < n as real + 0.5
  {
    (x + 0.5).Floor
  }

  /** `Math.ceil`: the least integer not below `x`. */
  function Ceil(x: real): (n: int)
    ensures x <= n as real < x + 1.0
  {
    -((-x).Floor)
  }

  /** `parseFloat(text) || 0`: NaN (and zero) read as zero. */
  function OrZero(parsed: Option<real>): (v: real)
    ensures parsed.None? ==> v == 0.0
    ensures parsed.Some? ==> v == parsed.value
  {
    parsed.GetOr(0.0)
  }

  /** `parseInt(text) || 0`. */
  function IntOrZero(parsed: Option<int>): (v: int)
    ensures parsed.None? ==> v == 0
    ensures parsed.Some? ==> v == parsed.value
  {
    parsed.GetOr(0)
  }

  /** The white space and line terminators `trim` removes. */
  predicate IsWhitespace(c: char) {
    || c == ' ' || c == '\t' || c == '\n' || c == '\r' || c == '\U{000B}' || c == '\U{000C}'
    || c == '\U{00A0}' || c == '\U{1680}' || ('\U{2000}' <= c <= '\U{200A}')
    || c == '\U{2028}' || c == '\U{2029}' || c == '\U{202F}' || c == '\U{205F}'
    || c == '\U{3000}' || c == '\U{FEFF}'
  }

  /** How many white-space characters `s` starts with. */
  function LeadingSpace(s: string): (n: nat)
    ensures n <= |s|
    ensures forall k :: 0 <= k < n ==> IsWhitespace(s[k])
    ensures n < |s| ==> !IsWhitespace(s[n])
  {
    if |s| > 0 && IsWhitespace(s[0]) then
      var m := LeadingSpace(s[1..]);
      assert forall k :: 1 <= k < m + 1 ==> s[k] == s[1..][k - 1];
      m + 1
    else 0
  }

  /** The length of `s` without its trailing white space. */
  function TextEnd(s: string): (n: nat)
    ensures n <= |s|
    ensures forall k :: n <= k < |s| ==> IsWhitespace(s[k])
    ensures n > 0 ==> !IsWhitespace(s[n - 1])
  {
    if |s| > 0 && IsWhitespace(s[|s| - 1]) then
      var m := TextEnd(s[..|s| - 1]);
      assert forall k :: m <= k < |s| - 1 ==> s[k] == s[..|s| - 1][k];
      m
    else |s|
  }

  /** `trimStart`. */
  function TrimStart(s: string): (r: string)
    ensures |r| <= |s|
  {
    s[LeadingSpace(s)..]
  }

  /** `trimEnd`. */
  function TrimEnd(s: string): (r: string)
    ensures |r| <= |s|
  {
    s[..TextEnd(s)]
  }

  /** `text.trim()`: the text without leading or trailing white space. */
  function Trim(s: string): (r: string)
    ensures |r| <= |s|
    ensures |r| > 0 ==> !IsWhitespace(r[0]) && !IsWhitespace(r[|r| - 1])
  {
    var t := TrimStart(s);
    var n := TextEnd(t);
    assert n > 0 ==> t[0] == s[LeadingSpace(s)];
    t[..n]
  }

  /** The trimmed text is the slice of the original after its leading
      white space. */
  lemma TrimSlice(s: string)
    ensures var r, lead := Trim(s), LeadingSpace(s);
      lead + |r| <= |s| && r == s[lead..lead + |r|]
  {
  }

  /** Everything trimming cuts off on either side is white space. */
  lemma TrimCutsWhitespace(s: string)
    ensures var r, lead := Trim(s), LeadingSpace(s);
      forall k :: 0 <= k < lead || lead + |r| <= k < |s| ==> IsWhitespace(s[k])
  {
    var lead := LeadingSpace(s);
    var t := s[lead..];
    var n := TextEnd(t);
    forall k | lead + n <= k < |s|
      ensures IsWhitespace(s[k])
    {
      assert s[k] == t[k - lead];
    }
  }

  /** A trimmed text is empty exactly when the text was all white space. */
  lemma {:induction false} TrimEmpty(s: string)
    ensures Trim(s) == "" <==> forall k :: 0 <= k < |s| ==> IsWhitespace(s[k])
  {
    var t := TrimStart(s);
    if |t| > 0 {
      assert !IsWhitespace(t[0]);
      assert TrimEnd(t)[..1] == t[..1];
      assert s[|s| - |t|] == t[0];
    }
  }

  /** Text without white space at either end is left as it is. */
  lemma TrimKeepsTrimmed(s: string)
    requires |s| > 0 ==> !IsWhitespace(s[0]) && !IsWhitespace(s[|s| - 1])
    ensures Trim(s) == s
  {
  }

  /** Trimming twice is trimming once. */
  lemma TrimIdempotent(s: string)
    ensures Trim(Trim(s)) == Trim(s)
  {
    TrimKeepsTrimmed(Trim(s));
  }
}
