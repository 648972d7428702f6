/**
 * String rules the components rely on: JavaScript truthiness of an optional
 * string, `toLowerCase()` (restricted to ASCII letters), and the slug rule
 * `name.toLowerCase().replace(/ /g, "-")` shared by category creation and
 * restaurant onboarding.
 */
module JsText {
  import opened Wrappers

  /** `s ? … : …` on a `string | null`: null and "" are falsy. */
  predicate Truthy(s: Option<string>)
  {
    s.Some? && s.value != ""
  }

  predicate IsUpper(c: char)
  {
    'A' <= c <= 'Z'
  }

  /** Lower-cases one ASCII letter; every other character is left alone. */
  function LowerChar(c: char): (r: char)
    ensures IsUpper(c) ==> r as int == c as int + 32
    ensures !IsUpper(c) ==> r == c
    ensures !IsUpper(r)
  {
    if IsUpper(c) then (c as int + 32) as char else c
  }

  /** `s.toLowerCase()` over ASCII. */
  function Lower(s: string): (r: string)
    ensures |r| == |s|
    ensures forall i :: 0 <= i < |s| ==> r[i] == LowerChar(s[i])
  {
    if s == [] then [] else [LowerChar(s[0])] + Lower(s[1..])
  }

  /** `s.replace(/ /g, "-")`: every space becomes a hyphen. */
  function ReplaceSpaces(s: string): (r: string)
    ensures |r| == |s|
    ensures forall i :: 0 <= i < |s| ==> r[i] == if s[i] == ' ' then '-' else s[i]
  {
    if s == [] then [] else [if s[0] == ' ' then '-' else s[0]] + ReplaceSpaces(s[1..])
  }

  /** The slug derived from a display name: lower-cased, then spaces to hyphens. */
  function Slugify(name: string): (r: string)
    ensures |r| == |name|
    ensures ' ' !in r
    ensures forall i :: 0 <= i < |r| ==> !IsUpper(r[i])
  {
    ReplaceSpaces(Lower(name))
  }

  /** A slug has the name's length, no space and no upper-case letter, and keeps every other character of the name. */
  lemma SlugifyShape(name: string)
    ensures |Slugify(name)| == |name|
    ensures forall i :: 0 <= i < |name| ==>
      Slugify(name)[i] == if name[i] == ' ' then '-' else LowerChar(name[i])
    ensures ' ' !in Slugify(name)
    ensures forall i :: 0 <= i < |name| ==> !IsUpper(Slugify(name)[i])
  {
    var s := Slugify(name);
    forall i | 0 <= i < |s|
      ensures s[i] != ' ' && !IsUpper(s[i])
    {
      assert s[i] == ReplaceSpaces(Lower(name))[i];
    }
  }

  /** Slugifying a slug changes nothing. */
  lemma {:induction false} SlugifyIdempotent(name: string)
    ensures Slugify(Slugify(name)) == Slugify(name)
  {
    if name != [] {
      SlugifyIdempotent(name[1..]);
      var s := Slugify(name);
      assert s == [Slugify(name)[0]] + Slugify(name[1..]);
      assert Slugify(s) == [Slugify(s)[0]] + Slugify(s[1..]);
    }
  }
}
