/** ASCII character classes, case folding and substring search, as the
    validators and the search filter use them. */
module Text {

  predicate IsAsciiAlnum(c: char) {
    ('a' <= c <= 'z') || ('A' <= c <= 'Z') || ('0' <= c <= '9')
  }

  /** `str.isalnum()`: true for a non-empty string of letters and digits only. */
  predicate IsAlnum(s: string) {
    |s| > 0 && forall i :: 0 <= i < |s| ==> IsAsciiAlnum(s[i])
  }

  function LowerChar(c: char): (r: char)
    ensures 'A' <= c <= 'Z' ==> 'a' <= r <= 'z' && r as int - c as int == 32
    ensures !('A' <= c <= 'Z') ==> r == c
  {
    if 'A' <= c <= 'Z' then (c as int + 32) as char else c
  }

  /** `str.lower()` restricted to ASCII. */
  function Lower(s: string): (r: string)
    ensures |r| == |s|
    ensures forall i :: 0 <= i < |s| ==> r[i] == LowerChar(s[i])
  {
    if s == [] then [] else [LowerChar(s[0])] + Lower(s[1..])
  }

  /** `s.replace('_', '')`. */
  function RemoveUnderscores(s: string): (r: string)
    ensures |r| <= |s|
    ensures forall i :: 0 <= i < |r| ==> r[i] != '_'
    ensures forall c :: c in r <==> c in s && c != '_'
  {
    if s == [] then []
    else if s[0] == '_' then RemoveUnderscores(s[1..])
    else [s[0]] + RemoveUnderscores(s[1..])
  }

  /** Every character other than `'_'` is kept exactly as often as it occurs. */
  lemma {:induction false} RemoveUnderscoresCount(s: string)
    ensures multiset(RemoveUnderscores(s)) == multiset(s)['_' := 0]
  {
    if s != [] {
      assert s == [s[0]] + s[1..];
      assert multiset(s) == multiset{s[0]} + multiset(s[1..]);
      RemoveUnderscoresCount(s[1..]);
      var rest := RemoveUnderscores(s[1..]);
      if s[0] != '_' {
        assert multiset([s[0]] + rest) == multiset{s[0]} + multiset(rest);
      }
    }
  }

  /** Removal works piece by piece: with the one-character cases (a `'_'`
      vanishes, any other character stays) this fixes the result, order and
      count included. */
  lemma {:induction false} RemoveUnderscoresAppend(a: string, b: string)
    ensures RemoveUnderscores(a + b) == RemoveUnderscores(a) + RemoveUnderscores(b)
  {
    if a == [] {
      assert a + b == b;
    } else {
      assert (a + b)[0] == a[0] && (a + b)[1..] == a[1..] + b;
      RemoveUnderscoresAppend(a[1..], b);
      var head := if a[0] == '_' then [] else [a[0]];
      assert RemoveUnderscores(a + b) == head + RemoveUnderscores(a[1..] + b);
      assert RemoveUnderscores(a) == head + RemoveUnderscores(a[1..]);
    }
  }

  /** One character: an underscore vanishes, any other character stays. */
  lemma RemoveUnderscoresChar(c: char)
    ensures RemoveUnderscores([c]) == if c == '_' then [] else [c]
  {
    assert [c][1..] == [];
  }

  /** `needle` occurs in `hay` at position `i`. */
  predicate OccursAt(hay: string, needle: string, i: int) {
    0 <= i && i + |needle| <= |hay| && hay[i..i + |needle|] == needle
  }

  /** Substring test (`needle in hay`), by scanning the start positions left to right. */
  function Contains(hay: string, needle: string): (b: bool)
    ensures b <==> exists i :: OccursAt(hay, needle, i)
    decreases |hay|
  {
    if needle <= hay then
      assert OccursAt(hay, needle, 0);
      true
    else if hay == [] then
      assert forall i :: !OccursAt(hay, needle, i);
      false
    else
      var rest := Contains(hay[1..], needle);
      assert forall i :: OccursAt(hay[1..], needle, i) <==> OccursAt(hay, needle, i + 1) by {
        forall i ensures OccursAt(hay[1..], needle, i) <==> OccursAt(hay, needle, i + 1) {
          if 0 <= i && i + |needle| <= |hay[1..]| {
            assert hay[1..][i..i + |needle|] == hay[i + 1..i + 1 + |needle|];
          }
        }
      }
      assert !OccursAt(hay, needle, 0);
      assert forall i :: OccursAt(hay, needle, i) ==> i >= 1 && OccursAt(hay[1..], needle, i - 1);
      rest
  }

  /** Case-insensitive substring test: the model of SQL `ILIKE '%needle%'`. */
  predicate ContainsIgnoreCase(hay: string, needle: string) {
    Contains(Lower(hay), Lower(needle))
  }

  lemma {:induction false} RemoveUnderscoresAlnum(s: string)
    ensures IsAlnum(RemoveUnderscores(s)) <==>
      (exists i :: 0 <= i < |s| && s[i] != '_') &&
      (forall i :: 0 <= i < |s| ==> s[i] == '_' || IsAsciiAlnum(s[i]))
  {
    var r := RemoveUnderscores(s);
    if IsAlnum(r) {
      assert r[0] in r;
      var k :| 0 <= k < |s| && s[k] == r[0];
      forall i | 0 <= i < |s| && s[i] != '_' ensures IsAsciiAlnum(s[i]) {
        assert s[i] in r;
        var j :| 0 <= j < |r| && r[j] == s[i];
      }
    }
    if (exists i :: 0 <= i < |s| && s[i] != '_') &&
       (forall i :: 0 <= i < |s| ==> s[i] == '_' || IsAsciiAlnum(s[i])) {
      var k :| 0 <= k < |s| && s[k] != '_';
      assert s[k] in r;
      forall j | 0 <= j < |r| ensures IsAsciiAlnum(r[j]) {
        assert r[j] in s;
        var i :| 0 <= i < |s| && s[i] == r[j];
      }
    }
  }
}
