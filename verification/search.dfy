/**
 * Lookups over stored rows: the first row a predicate picks (the repository's
 * `findOne` and the array `findIndex`), substring containment (the SQL pattern
 * `%x%`) and filtering the sale rows by it.
 */
module Search {
  import opened Records

  /** The index of the first element of `s` that satisfies `p`, if any. */
  function FirstIndex<T>(s: seq<T>, p: T -> bool): (k: Option<nat>)
    ensures k.Some? ==> k.value < |s| && p(s[k.value])
    ensures k.Some? ==> forall j :: 0 <= j < k.value ==> !p(s[j])
    ensures k.None? <==> forall j :: 0 <= j < |s| ==> !p(s[j])
    decreases |s|
  {
    if |s| == 0 then None
    else if p(s[0]) then Some(0)
    else
      match FirstIndex(s[1..], p)
      case None => None
      case Some(k) => Some(k + 1)
  }

  /** `needle` occurs in `text` at position `i`. */
  ghost predicate OccursAt(text: string, needle: string, i: int)
  {
    0 <= i && i + |needle| <= |text| && text[i..i + |needle|] == needle
  }

  /** `text` matches the pattern `%needle%`: `needle` occurs somewhere in it. */
  ghost predicate IsSubstring(needle: string, text: string)
  {
    exists i :: OccursAt(text, needle, i)
  }

  /** Executable containment test, scanning the start positions left to right. */
  function Contains(text: string, needle: string): (b: bool)
    ensures b <==> IsSubstring(needle, text)
    decreases |text|
  {
    if |needle| > |text| then
      assert forall i :: !OccursAt(text, needle, i);
      false
    else if text[..|needle|] == needle then
      assert OccursAt(text, needle, 0);
      true
    else
      var rest := Contains(text[1..], needle);
      assert rest ==> IsSubstring(needle, text) by {
        if rest {
          var i :| OccursAt(text[1..], needle, i);
          assert text[1..][i..i + |needle|] == text[i + 1..i + 1 + |needle|];
          assert OccursAt(text, needle, i + 1);
        }
      }
      assert IsSubstring(needle, text) ==> rest by {
        if IsSubstring(needle, text) {
          var i :| OccursAt(text, needle, i);
          assert i != 0;
          assert text[1..][i - 1..i - 1 + |needle|] == text[i..i + |needle|];
          assert OccursAt(text[1..], needle, i - 1);
        }
      }
      rest
  }

  /** The rows of `rows` that `keep` selects, in their stored order. */
  function Filter<T(!new)>(rows: seq<T>, keep: T -> bool): (r: seq<T>)
    ensures |r| <= |rows|
    ensures forall x :: x in r <==> x in rows && keep(x)
    ensures multiset(r) <= multiset(rows)
    ensures forall x :: multiset(r)[x] == if keep(x) then multiset(rows)[x] else 0
    decreases |rows|
  {
    if |rows| == 0 then []
    else
      var tail := Filter(rows[1..], keep);
      assert rows == [rows[0]] + rows[1..];
      if keep(rows[0]) then [rows[0]] + tail else tail
  }

  /** Selects the sales whose serving user's name contains `q`. */
  function UserNameContains(q: string): Sale -> bool
  {
    (s: Sale) => Contains(s.userName, q)
  }

  /** Selects the sales whose date string contains `q`. */
  function DateContains(q: string): Sale -> bool
  {
    (s: Sale) => Contains(s.date, q)
  }
}
