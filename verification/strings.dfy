/**
 The few JavaScript string operations the import wizard relies on:
 `String.prototype.includes`, `split` on a one-character separator and
 `Array.prototype.join`, plus the file-name stem built from them.
 */
module Strings {

  /** `t` occurs in `s` starting at index `i`. */
  ghost predicate OccursAt(s: string, t: string, i: int) {
    0 <= i && i + |t| <= |s| && s[i..i + |t|] == t
  }

  /** `s.includes(t)`: whether `t` is a substring of `s` (the empty string is a substring of all). */
  function Includes(s: string, t: string): (r: bool)
    ensures r <==> exists i :: OccursAt(s, t, i)
    decreases |s|
  {
    if |t| > |s| then
      assert forall i :: !OccursAt(s, t, i);
      false
    else if s[..|t|] == t then
      assert OccursAt(s, t, 0);
      true
    else
      var r := Includes(s[1..], t);
      assert forall i :: OccursAt(s[1..], t, i) ==> OccursAt(s, t, i + 1) by {
        forall i | OccursAt(s[1..], t, i) ensures OccursAt(s, t, i + 1) {
          assert s[1..][i..i + |t|] == s[i + 1..i + 1 + |t|];
        }
      }
      assert forall i :: OccursAt(s, t, i) ==> OccursAt(s[1..], t, i - 1) by {
        forall i | OccursAt(s, t, i) ensures OccursAt(s[1..], t, i - 1) {
          assert i != 0;
          assert s[1..][i - 1..i - 1 + |t|] == s[i..i + |t|];
        }
      }
      r
  }

  /** `parts.join(d)`: the parts separated by `d`; the empty list joins to "". */
  function Join(parts: seq<string>, d: char): string
    decreases |parts|
  {
    if |parts| == 0 then ""
    else if |parts| == 1 then parts[0]
    else
      parts[0] + [d] + Join(parts[1..], d)
  }

  /** `s.split(d)`: the maximal `d`-free pieces of `s`, left to right; always at least one piece. */
  function Split(s: string, d: char): (parts: seq<string>)
    ensures |parts| >= 1
    ensures forall p :: p in parts ==> d !in p
    ensures |parts| == 1 <==> d !in s
    ensures Join(parts, d) == s
    decreases |s|
  {
    if |s| == 0 then [""]
    else
      var rest := Split(s[1..], d);
      assert s == [s[0]] + s[1..];
      if s[0] == d then
        assert ([""] + rest)[1..] == rest;
        [""] + rest
      else
        var parts := [[s[0]] + rest[0]] + rest[1..];
        assert forall p :: p in parts ==> p == [s[0]] + rest[0] || p in rest;
        JoinConsFirst(s[0], rest, d);
        parts
  }

  /**
   What `join` produces: the empty list gives "", otherwise the text starts
   with the first part and ends with the last, and when no part contains the
   separator it occurs exactly once between each two neighbouring parts.
   */
  lemma {:induction false} JoinParts(parts: seq<string>, d: char)
    ensures |parts| == 0 ==> Join(parts, d) == ""
    ensures |parts| >= 1 ==> parts[0] <= Join(parts, d)
    ensures |parts| >= 1 ==> EndsWith(Join(parts, d), parts[|parts| - 1])
    ensures (forall p :: p in parts ==> d !in p) ==> multiset(Join(parts, d))[d] == if |parts| == 0 then 0 else |parts| - 1
    decreases |parts|
  {
    if |parts| >= 2 {
      var tail := Join(parts[1..], d);
      JoinParts(parts[1..], d);
      assert parts[|parts| - 1] == parts[1..][|parts[1..]| - 1];
      var r := parts[0] + [d] + tail;
      assert Join(parts, d) == r;
      assert r[..|parts[0]|] == parts[0];
      assert r[|r| - |tail|..] == tail;
      assert multiset(r) == multiset(parts[0]) + multiset{d} + multiset(tail);
      if forall p :: p in parts ==> d !in p {
        assert parts[0] in parts;
        assert forall p :: p in parts[1..] ==> p in parts;
      }
    } else if |parts| == 1 {
      assert parts[0] in parts;
    }
  }

  /** `s` ends with `t`. */
  ghost predicate EndsWith(s: string, t: string) {
    |t| <= |s| && s[|s| - |t|..] == t
  }

  /** Prepending a character to the first part prepends it to the joined string. */
  lemma {:induction false} JoinConsFirst(c: char, parts: seq<string>, d: char)
    requires |parts| >= 1
    ensures Join([[c] + parts[0]] + parts[1..], d) == [c] + Join(parts, d)
  {
  }

  /** Joining with a last part split off: everything before the last separator, then the last part. */
  lemma {:induction false} JoinSnoc(parts: seq<string>, d: char)
    requires |parts| >= 2
    ensures Join(parts, d) == Join(parts[..|parts| - 1], d) + [d] + parts[|parts| - 1]
    decreases |parts|
  {
    if |parts| > 2 {
      JoinSnoc(parts[1..], d);
      assert parts[1..][..|parts[1..]| - 1] == parts[..|parts| - 1][1..];
    }
  }

  /** Splitting a `d`-free piece, a separator and a tail: the piece, then the tail's pieces. */
  lemma {:induction false} SplitAfterPiece(p: string, tail: string, d: char)
    requires d !in p
    ensures Split(p + [d] + tail, d) == [p] + Split(tail, d)
    decreases |p|
  {
    var s := p + [d] + tail;
    if |p| == 0 {
      assert s[0] == d && s[1..] == tail;
    } else {
      assert s[0] == p[0] && p[0] != d;
      assert s[1..] == p[1..] + [d] + tail;
      SplitAfterPiece(p[1..], tail, d);
      var rest := Split(s[1..], d);
      assert rest == [p[1..]] + Split(tail, d);
      assert Split(s, d) == [[s[0]] + rest[0]] + rest[1..];
      assert [p[0]] + p[1..] == p;
    }
  }

  /** `split` inverts `join` when no part contains the separator. */
  lemma {:induction false} SplitJoin(parts: seq<string>, d: char)
    requires |parts| >= 1
    requires forall p :: p in parts ==> d !in p
    ensures Split(Join(parts, d), d) == parts
    decreases |parts|
  {
    if |parts| == 1 {
      SplitNoSeparator(parts[0], d);
    } else {
      assert parts[0] in parts;
      assert forall p :: p in parts[1..] ==> p in parts;
      SplitJoin(parts[1..], d);
      SplitAfterPiece(parts[0], Join(parts[1..], d), d);
      assert parts == [parts[0]] + parts[1..];
    }
  }

  /** A string without the separator splits into just itself. */
  lemma SplitNoSeparator(s: string, d: char)
    requires d !in s
    ensures Split(s, d) == [s]
  {
  }

  /**
   `name.split('.').slice(0, -1).join('.')`: the file name without its last
   `.`-separated segment (inner dots kept; "" when there is no dot).
   */
  function Stem(name: string): (r: string)
    ensures '.' !in name ==> r == ""
    ensures '.' in name ==> exists ext :: '.' !in ext && name == r + "." + ext
  {
    var parts := Split(name, '.');
    var stem := Join(parts[..|parts| - 1], '.');
    if |parts| >= 2 then
      JoinSnoc(parts, '.');
      assert parts[|parts| - 1] in parts;
      stem
    else
      stem
  }

  /** The stem is exactly the text before the last dot: any split at a last dot gives it. */
  lemma StemBeforeLastDot(name: string, before: string, ext: string)
    requires name == before + "." + ext
    requires '.' !in ext
    ensures Stem(name) == before
  {
    assert name[|before|] == '.';
    var stem := Stem(name);
    var ext' :| '.' !in ext' && name == stem + "." + ext';
    assert forall k :: |before| < k < |name| ==> name[k] == ext[k - |before| - 1];
    assert forall k :: |stem| < k < |name| ==> name[k] == ext'[k - |stem| - 1];
    assert name[|stem|] == '.';
    assert |stem| == |before|;
    assert stem == name[..|stem|] == before;
  }
}
