/**
 * The three string operations the catalog search relies on:
 * lower-casing (`toLowerCase`), deleting every colon (`replace(/:/g, '')`)
 * and substring occurrence (`indexOf(q) !== -1`).
 */
module Text {

  /** Lower-cases one ASCII letter and leaves every other character alone. */
  function LowerChar(c: char): char
  {
    if 'A' <= c <= 'Z' then (c as int + 32) as char else c
  }

  /** `s.toLowerCase()`, for the ASCII letters. */
  function Lower(s: string): (r: string)
    ensures |r| == |s|
  {
    if s == [] then [] else [LowerChar(s[0])] + Lower(s[1..])
  }

  /** Lower-casing works character by character. */
  lemma {:induction false} LowerAt(s: string, i: nat)
    requires i < |s|
    ensures Lower(s)[i] == LowerChar(s[i])
  {
    if i > 0 {
      LowerAt(s[1..], i - 1);
    }
  }

  /** Lower-casing distributes over concatenation. */
  lemma {:induction false} LowerAppend(a: string, b: string)
    ensures Lower(a + b) == Lower(a) + Lower(b)
  {
    if a != [] {
      assert (a + b)[1..] == a[1..] + b;
      LowerAppend(a[1..], b);
    } else {
      assert a + b == b;
    }
  }

  /** Lower-casing a lower-cased string changes nothing. */
  lemma {:induction false} LowerIdempotent(s: string)
    ensures Lower(Lower(s)) == Lower(s)
  {
    if s != [] {
      LowerIdempotent(s[1..]);
    }
  }

  /** `s.replace(/:/g, '')`: the characters of `s` other than ':', in order. */
  function RemoveColons(s: string): (r: string)
    ensures |r| <= |s|
  {
    if s == [] then []
    else if s[0] == ':' then RemoveColons(s[1..])
    else [s[0]] + RemoveColons(s[1..])
  }

  /** The colon-free form keeps exactly the characters other than ':'. */
  lemma {:induction false} RemoveColonsChars(s: string)
    ensures forall c :: c in RemoveColons(s) <==> c in s && c != ':'
  {
    if s != [] {
      RemoveColonsChars(s[1..]);
      assert forall c :: c in s <==> c == s[0] || c in s[1..];
    }
  }

  /** A string without colons is its own colon-free form. */
  lemma {:induction false} RemoveColonsNoColon(s: string)
    requires ':' !in s
    ensures RemoveColons(s) == s
  {
    if s != [] {
      assert ':' !in s[1..];
      RemoveColonsNoColon(s[1..]);
    }
  }

  /** `hay.indexOf(needle) !== -1`: `needle` occurs somewhere in `hay`. */
  predicate Occurs(hay: string, needle: string)
    decreases |hay|
  {
    if needle <= hay then true
    else if hay == [] then false
    else Occurs(hay[1..], needle)
  }

  /** `needle` occurs in `hay` starting at position `i`. */
  predicate OccursAt(hay: string, needle: string, i: int)
  {
    0 <= i && i + |needle| <= |hay| && hay[i..i + |needle|] == needle
  }

  /** Occurs holds exactly when `needle` occurs in `hay` at some position. */
  lemma {:induction false} OccursIff(hay: string, needle: string)
    ensures Occurs(hay, needle) <==> exists i :: OccursAt(hay, needle, i)
    decreases |hay|
  {
    if needle <= hay {
      assert OccursAt(hay, needle, 0);
    } else if hay == [] {
      assert forall i :: !OccursAt(hay, needle, i);
    } else {
      OccursIff(hay[1..], needle);
      if exists i :: OccursAt(hay, needle, i) {
        var i :| OccursAt(hay, needle, i);
        assert i != 0;
        assert hay[1..][i - 1..i - 1 + |needle|] == hay[i..i + |needle|];
        assert OccursAt(hay[1..], needle, i - 1);
      }
      if Occurs(hay[1..], needle) {
        var i :| OccursAt(hay[1..], needle, i);
        assert hay[i + 1..i + 1 + |needle|] == hay[1..][i..i + |needle|];
        assert OccursAt(hay, needle, i + 1);
      }
    }
  }

  /** A string occurs in any concatenation that has it as a middle part. */
  lemma OccursInMiddle(a: string, b: string, c: string)
    ensures Occurs(a + b + c, b)
  {
    var hay := a + b + c;
    assert hay[|a|..|a| + |b|] == b;
    assert OccursAt(hay, b, |a|);
    OccursIff(hay, b);
  }
}
