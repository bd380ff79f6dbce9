/** Well-name sanitising (`_sluggify`): a well name becomes a file-name stem
    by replacing every `/` with `!` and every space with `_`. */
module Slug {

  /** `s.replace(from, to)` for single characters: every occurrence of
      `from` becomes `to`, everything else stays in place. */
  function Replace(s: string, from: char, to: char): (r: string)
    ensures |r| == |s|
    ensures forall i :: 0 <= i < |s| ==> r[i] == if s[i] == from then to else s[i]
  {
    if s == [] then []
    else [if s[0] == from then to else s[0]] + Replace(s[1..], from, to)
  }

  /** The two replacements of `_sluggify`, in the source's order. */
  function Sluggify(token: string): (r: string)
    ensures |r| == |token|
    ensures forall i :: 0 <= i < |token| ==>
      r[i] == if token[i] == '/' then '!' else if token[i] == ' ' then '_' else token[i]
    ensures '/' !in r && ' ' !in r
  {
    Replace(Replace(token, '/', '!'), ' ', '_')
  }

  /** The character sets of the two replacements are disjoint, so the
      order in which they are applied does not matter. */
  lemma SluggifyOrderIndependent(token: string)
    ensures Replace(Replace(token, ' ', '_'), '/', '!') == Sluggify(token)
  {
  }

  /** Replacing a character that does not occur changes nothing. */
  lemma ReplaceAbsent(s: string, from: char, to: char)
    requires from !in s
    ensures Replace(s, from, to) == s
  {
  }

  /** A name that is already a safe stem is left as it is. */
  lemma SluggifySafeUnchanged(token: string)
    requires '/' !in token && ' ' !in token
    ensures Sluggify(token) == token
  {
  }

  /** Sanitising twice is sanitising once. */
  lemma SluggifyIdempotent(token: string)
    ensures Sluggify(Sluggify(token)) == Sluggify(token)
  {
  }

  /** A well name with a slash keeps its other characters. */
  lemma SluggifySlashExample()
    ensures Sluggify("15/9-F-1") == "15!9-F-1"
  {
    var r := Replace("15/9-F-1", '/', '!');
    assert r[2] == '!';
    assert r == "15!9-F-1";
    ReplaceAbsent(r, ' ', '_');
  }

  /** A space becomes an underscore. */
  lemma SluggifySpaceExample()
    ensures Sluggify("A B") == "A_B"
  {
  }
}
