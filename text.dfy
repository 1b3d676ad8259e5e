/**
 * String helpers shared by the model: the two whitespace classes the
 * Kotlin code relies on, trimming, field splitting, ASCII case folding,
 * suffix tests and decimal rendering, plus the Option/Result wrappers.
 */
module Text {

  datatype Option<+T> = None | Some(value: T)

  datatype Result<+T, +E> = Ok(value: T) | Err(error: E)

  /** Java's regex class `\s`: space, tab, line feed, vertical tab, form feed, carriage return. */
  predicate IsRegexSpace(c: char)
  {
    c == ' ' || c == '\t' || c == '\n' || c == '\U{000B}' || c == '\U{000C}' || c == '\r'
  }

  /**
   * Kotlin's `Char.isWhitespace()` on the JVM: Java whitespace (which adds the
   * four information separators U+001C..U+001F) or a Unicode space/line/paragraph
   * separator (which adds the no-break spaces).  Used by `trim`, `trimEnd` and `isBlank`.
   */
  predicate IsWhitespace(c: char)
  {
    IsRegexSpace(c)
    || ('\U{001C}' <= c <= '\U{001F}')
    || c == '\U{00A0}' || c == '\U{1680}'
    || ('\U{2000}' <= c <= '\U{200A}')
    || c == '\U{2028}' || c == '\U{2029}' || c == '\U{202F}' || c == '\U{205F}' || c == '\U{3000}'
  }

  /** `isBlank()`: empty or whitespace only. */
  predicate IsBlank(s: string)
  {
    forall i :: 0 <= i < |s| ==> IsWhitespace(s[i])
  }

  function TrimStart(s: string): (r: string)
    ensures |r| <= |s| && r == s[|s| - |r|..]
    ensures r == [] || !IsWhitespace(r[0])
    ensures forall i :: 0 <= i < |s| - |r| ==> IsWhitespace(s[i])
  {
    if s != [] && IsWhitespace(s[0]) then TrimStart(s[1..]) else s
  }

  function TrimEnd(s: string): (r: string)
    ensures |r| <= |s| && r == s[..|r|]
    ensures r == [] || !IsWhitespace(r[|r| - 1])
    ensures forall i :: |r| <= i < |s| ==> IsWhitespace(s[i])
  {
    if s != [] && IsWhitespace(s[|s| - 1]) then TrimEnd(s[..|s| - 1]) else s
  }

  /** Kotlin `trim()`: drop whitespace at both ends. */
  function Trim(s: string): string
  {
    TrimEnd(TrimStart(s))
  }

  /** A trimmed string is blank exactly when it is empty. */
  lemma TrimBlank(s: string)
    ensures Trim(s) == [] <==> IsBlank(s)
    ensures Trim(s) != [] ==> !IsWhitespace(Trim(s)[0]) && !IsBlank(Trim(s))
  {
    var t := TrimStart(s);
    if Trim(s) == [] {
      assert t == [];
    } else {
      assert !IsWhitespace(s[|s| - |t|]);
    }
  }

  /**
   * Kotlin `split` on a delimiter class, with every field kept: a string with
   * k delimiters gives k + 1 fields, empty ones included (so "" gives [""]).
   */
  function Split(s: string, isSep: char -> bool): (r: seq<string>)
    ensures |r| >= 1
  {
    if s == [] then [""]
    else if isSep(s[0]) then [""] + Split(s[1..], isSep)
    else var rest := Split(s[1..], isSep); [[s[0]] + rest[0]] + rest[1..]
  }

  predicate NoSep(s: string, isSep: char -> bool)
  {
    forall i :: 0 <= i < |s| ==> !isSep(s[i])
  }

  /** A delimiter-free string is a single field. */
  lemma {:induction false} SplitNoSep(a: string, isSep: char -> bool)
    requires NoSep(a, isSep)
    ensures Split(a, isSep) == [a]
  {
    if a != [] {
      assert NoSep(a[1..], isSep);
      SplitNoSep(a[1..], isSep);
      assert [a[0]] + a[1..] == a;
    }
  }

  /** The first delimiter closes the first field. */
  lemma {:induction false} SplitAtSep(a: string, c: char, b: string, isSep: char -> bool)
    requires NoSep(a, isSep) && isSep(c)
    ensures Split(a + [c] + b, isSep) == [a] + Split(b, isSep)
  {
    if a == [] {
      assert a + [c] + b == [c] + b;
    } else {
      assert (a + [c] + b)[1..] == a[1..] + [c] + b;
      assert NoSep(a[1..], isSep);
      SplitAtSep(a[1..], c, b, isSep);
      assert [a[0]] + a[1..] == a;
    }
  }

  /** A trailing delimiter adds one empty field at the end. */
  lemma {:induction false} SplitTrailingSep(a: string, c: char, isSep: char -> bool)
    requires isSep(c)
    ensures Split(a + [c], isSep) == Split(a, isSep) + [""]
  {
    if a == [] {
      assert a + [c] == [c];
    } else {
      assert (a + [c])[1..] == a[1..] + [c];
      SplitTrailingSep(a[1..], c, isSep);
    }
  }

  function LowerChar(c: char): char
  {
    if 'A' <= c <= 'Z' then (c as int + 32) as char else c
  }

  /** `lowercase()` restricted to ASCII letters. */
  function Lower(s: string): (r: string)
    ensures |r| == |s|
    ensures forall i :: 0 <= i < |s| ==> r[i] == LowerChar(s[i])
  {
    if s == [] then [] else [LowerChar(s[0])] + Lower(s[1..])
  }

  /** `equals(other, ignoreCase = true)` on ASCII letters. */
  predicate EqualsIgnoreCase(a: string, b: string)
  {
    Lower(a) == Lower(b)
  }

  predicate EndsWith(s: string, suffix: string)
  {
    |suffix| <= |s| && s[|s| - |suffix|..] == suffix
  }

  /** `endsWith(suffix, ignoreCase = true)` on ASCII letters. */
  predicate EndsWithIgnoreCase(s: string, suffix: string)
  {
    EndsWith(Lower(s), Lower(suffix))
  }

  predicate IsDigit(c: char)
  {
    '0' <= c <= '9'
  }

  /** Decimal rendering of a natural number, as string templates print an Int. */
  function NatToString(n: nat): (r: string)
    ensures |r| >= 1 && forall i :: 0 <= i < |r| ==> IsDigit(r[i])
  {
    if n < 10 then [('0' as int + n) as char]
    else NatToString(n / 10) + [('0' as int + n % 10) as char]
  }
}
