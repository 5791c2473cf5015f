/** The few PHP string built-ins the handlers rely on, stated over `seq<char>`. */
module Php {
  import opened Wrappers

  /** PHP's `empty()` on a string: true for "" and for "0". */
  predicate Empty(s: string) {
    s == "" || s == "0"
  }

  /** The characters stripped by PHP's default `trim()`: space, tab, newline, carriage return, NUL, vertical tab. */
  predicate IsSpace(c: char) {
    c == ' ' || c == '\t' || c == '\n' || c == '\r' || c as int == 0 || c as int == 11
  }

  /** `ltrim($s)`: drops the leading run of space characters. */
  function TrimLeft(s: string): string {
    if s != [] && IsSpace(s[0]) then TrimLeft(s[1..]) else s
  }

  /** `rtrim($s)`: drops the trailing run of space characters. */
  function TrimRight(s: string): string {
    if s != [] && IsSpace(s[|s| - 1]) then TrimRight(s[..|s| - 1]) else s
  }

  /** `trim($s)`. */
  function Trim(s: string): string {
    TrimRight(TrimLeft(s))
  }

  /** `ltrim` keeps a suffix, drops only space characters, and leaves no leading space. */
  lemma {:induction false} TrimLeftSpec(s: string)
    ensures var r := TrimLeft(s);
      && |r| <= |s| && r == s[|s| - |r|..]
      && (r == [] || !IsSpace(r[0]))
      && forall i :: 0 <= i < |s| - |r| ==> IsSpace(s[i])
  {
    if s != [] && IsSpace(s[0]) {
      TrimLeftSpec(s[1..]);
      var r := TrimLeft(s[1..]);
      assert forall i :: 1 <= i < |s| - |r| ==> s[1..][i - 1] == s[i];
    }
  }

  /** `rtrim` keeps a prefix, drops only space characters, and leaves no trailing space. */
  lemma {:induction false} TrimRightSpec(s: string)
    ensures var r := TrimRight(s);
      && |r| <= |s| && r == s[..|r|]
      && (r == [] || !IsSpace(r[|r| - 1]))
      && forall i :: |r| <= i < |s| ==> IsSpace(s[i])
  {
    if s != [] && IsSpace(s[|s| - 1]) {
      TrimRightSpec(s[..|s| - 1]);
      var r := TrimRight(s[..|s| - 1]);
      assert forall i :: |r| <= i < |s| - 1 ==> s[..|s| - 1][i] == s[i];
    }
  }

  /** `trim` yields an infix of its argument with no space character at either end. */
  lemma TrimSpec(s: string)
    ensures var r := Trim(s);
      && |r| <= |s|
      && (r == [] || (!IsSpace(r[0]) && !IsSpace(r[|r| - 1])))
      && var start := |s| - |TrimLeft(s)|;
         0 <= start <= start + |r| <= |s| && r == s[start..start + |r|]
  {
    TrimLeftSpec(s);
    var l := TrimLeft(s);
    TrimRightSpec(l);
    var r := TrimRight(l);
  }

  /** Trimming is idempotent. */
  lemma TrimIdempotent(s: string)
    ensures Trim(Trim(s)) == Trim(s)
  {
    TrimSpec(s);
    var r := Trim(s);
    assert TrimLeft(r) == r;
    assert TrimRight(r) == r;
  }

  /** ASCII upper case to lower case, as `strtolower` does since PHP 8. */
  function LowerChar(c: char): char {
    if 'A' <= c <= 'Z' then (c as int + 32) as char else c
  }

  function Lower(s: string): (r: string)
    ensures |r| == |s|
  {
    seq(|s|, i requires 0 <= i < |s| => LowerChar(s[i]))
  }

  /** `str_replace([' ', '-'], '_', $s)`. */
  function Underscored(s: string): (r: string)
    ensures |r| == |s|
  {
    seq(|s|, i requires 0 <= i < |s| => if s[i] == ' ' || s[i] == '-' then '_' else s[i])
  }

  /** `str_replace(',', '.', $s)`. */
  function CommaToDot(s: string): (r: string)
    ensures |r| == |s|
  {
    seq(|s|, i requires 0 <= i < |s| => if s[i] == ',' then '.' else s[i])
  }

  /** `strpos($s, $prefix) === 0`. */
  predicate StartsWith(s: string, prefix: string) {
    |prefix| <= |s| && s[..|prefix|] == prefix
  }

  /**
   * `filter_var($s, FILTER_VALIDATE_INT)` and `filter_var($s, FILTER_VALIDATE_FLOAT)`, None for false.
   * Their number grammar is a parameter of the model.
   */
  datatype Filters = Filters(validateInt: string -> Option<int>, validateFloat: string -> Option<real>)

  /** `$s` stored through `!empty($s) ? $s : null`, with NULL written as "". */
  function OrNull(s: string): (r: string)
    ensures Empty(s) ==> r == ""
    ensures !Empty(s) ==> r == s
  {
    if Empty(s) then "" else s
  }
}
