/**
 * The few PHP string primitives the generator relies on, stated over
 * `seq<char>`: concatenation of a list of pieces, `implode`, `strpos`
 * and the conversion of a string to a boolean in a condition.
 */
module PhpStrings {
  import opened Wrappers

  /** The pieces written one after another. */
  function Concat(parts: seq<string>): (s: string)
  {
    if parts == [] then "" else parts[0] + Concat(parts[1..])
  }

  lemma {:induction false} ConcatAppend(a: seq<string>, b: seq<string>)
    ensures Concat(a + b) == Concat(a) + Concat(b)
  {
    if a == [] {
      assert a + b == b;
    } else {
      assert (a + b)[1..] == a[1..] + b;
      ConcatAppend(a[1..], b);
    }
  }

  /** PHP's `implode(glue, pieces)`: the pieces separated by `glue`. */
  function Implode(glue: string, pieces: seq<string>): (s: string)
  {
    if |pieces| == 0 then ""
    else if |pieces| == 1 then pieces[0]
    else pieces[0] + glue + Implode(glue, pieces[1..])
  }

  /** Appending one piece to a non-empty list adds the glue and that piece at the end. */
  lemma {:induction false} ImplodeSnoc(glue: string, pieces: seq<string>, last: string)
    requires |pieces| > 0
    ensures Implode(glue, pieces + [last]) == Implode(glue, pieces) + glue + last
  {
    if |pieces| == 1 {
      assert pieces + [last] == [pieces[0], last];
    } else {
      assert (pieces + [last])[1..] == pieces[1..] + [last];
      ImplodeSnoc(glue, pieces[1..], last);
    }
  }

  /** PHP's boolean value of a string: only "" and "0" are false. */
  predicate Truthy(s: string): (b: bool)
  {
    s != "" && s != "0"
  }

  /** `needle` occurs in `haystack` starting at position `k`. */
  predicate OccursAt(haystack: string, needle: string, k: nat): (b: bool)
  {
    k + |needle| <= |haystack| && haystack[k..k + |needle|] == needle
  }

  /**
   * PHP's `strpos(haystack, needle)`: the position of the first occurrence
   * of `needle`, or None where PHP returns false.
   */
  function StrPos(haystack: string, needle: string): (r: Option<nat>)
    ensures r.Some? ==> OccursAt(haystack, needle, r.value)
    ensures r.Some? ==> forall j: nat :: j < r.value ==> !OccursAt(haystack, needle, j)
    ensures r.None? ==> forall j: nat :: !OccursAt(haystack, needle, j)
    decreases |haystack|
  {
    if needle <= haystack then
      assert haystack[0..|needle|] == needle;
      Some(0)
    else if |haystack| == 0 then
      None
    else
      var tail := haystack[1..];
      ShiftOccurrence(haystack, needle);
      match StrPos(tail, needle)
      case None => None
      case Some(k) => Some(k + 1)
  }

  /** An occurrence one place into the string is an occurrence in its tail. */
  lemma ShiftOccurrence(haystack: string, needle: string)
    requires |haystack| > 0
    ensures !(needle <= haystack) ==> !OccursAt(haystack, needle, 0)
    ensures forall j: nat :: 0 < j ==> (OccursAt(haystack, needle, j) <==> OccursAt(haystack[1..], needle, j - 1))
  {
  }

  /** `0 === strpos(haystack, needle)` holds exactly when `haystack` starts with `needle`. */
  lemma StrPosZeroIffPrefix(haystack: string, needle: string)
    ensures StrPos(haystack, needle) == Some(0) <==> needle <= haystack
  {
  }
}
