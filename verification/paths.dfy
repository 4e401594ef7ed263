/**
 Path handling for references: `Split`, `Tail` and `DeepGet`. Their code is not
 part of this model; they are written here with the plain meaning their names
 and uses give them: `Split` cuts a string at every separator (as JavaScript's
 `split` does), `Tail` drops the first element, and `DeepGet` walks object keys
 and answers a default value as soon as a key is missing.
 */
module Paths {
  import opened Schemas

  /** The separated parts glued back together. */
  function Join(parts: seq<string>, sep: char): string
    decreases |parts|
  {
    if |parts| == 0 then ""
    else if |parts| == 1 then parts[0]
    else parts[0] + [sep] + Join(parts[1..], sep)
  }

  predicate SeparatorFree(parts: seq<string>, sep: char)
  {
    forall i | 0 <= i < |parts| :: sep !in parts[i]
  }

  /** Cuts `s` at every occurrence of `sep`. The parts carry no separator and
      join back to `s`; `Split("", sep)` is `[""]`. */
  function Split(s: string, sep: char): (parts: seq<string>)
    ensures |parts| >= 1
    ensures SeparatorFree(parts, sep)
    ensures Join(parts, sep) == s
    decreases |s|
  {
    if |s| == 0 then [""]
    else
      var rest := Split(s[1..], sep);
      if s[0] == sep then [""] + rest
      else [[s[0]] + rest[0]] + rest[1..]
  }

  /** A list without its first element; the empty list stays empty. */
  function Tail<T>(xs: seq<T>): (r: seq<T>)
    ensures |xs| > 0 ==> |r| == |xs| - 1
    ensures |xs| == 0 ==> r == []
    ensures forall i | 0 <= i < |r| :: r[i] == xs[i + 1]
  {
    if |xs| == 0 then [] else xs[1..]
  }

  /** The keys a pointer such as `/definitions/foo` walks: the pointer is split
      on `/` and the leading empty part dropped. No `~0`/`~1` unescaping. */
  function Segments(pointer: string): seq<string>
  {
    Tail(Split(pointer, '/'))
  }

  /** Whether every key of `path` exists along the walk from `obj`. */
  predicate Resolves(obj: Schema, path: seq<string>)
    decreases |path|
  {
    |path| == 0 || (HasKey(obj, path[0]) && Resolves(obj.keys[path[0]], path[1..]))
  }

  /** The value reached from `obj` by following the keys of `path`, or `default`
      when some key is missing. */
  function DeepGet(obj: Schema, path: seq<string>, default: Schema): (r: Schema)
    ensures |path| == 0 ==> r == obj
    ensures !Resolves(obj, path) ==> r == default
    decreases |path|
  {
    if |path| == 0 then obj
    else if HasKey(obj, path[0]) then DeepGet(obj.keys[path[0]], path[1..], default)
    else default
  }

  /** `Split` undoes `Join`: a list of separator-free parts is recovered from
      the string they join into, so the two are inverse bijections. */
  lemma {:induction false} SplitJoin(parts: seq<string>, sep: char)
    requires |parts| >= 1
    requires SeparatorFree(parts, sep)
    ensures Split(Join(parts, sep), sep) == parts
    decreases |parts|
  {
    if |parts| == 1 {
      SplitPlain(parts[0], sep);
    } else {
      SplitJoin(parts[1..], sep);
      SplitCons(parts[0], Join(parts[1..], sep), sep);
    }
  }

  /** A string without separators is one part. */
  lemma {:induction false} SplitPlain(s: string, sep: char)
    requires sep !in s
    ensures Split(s, sep) == [s]
    decreases |s|
  {
    if |s| > 0 {
      SplitPlain(s[1..], sep);
    }
  }

  /** The first part ends at the first separator. */
  lemma {:induction false} SplitCons(p: string, rest: string, sep: char)
    requires sep !in p
    ensures Split(p + [sep] + rest, sep) == [p] + Split(rest, sep)
    decreases |p|
  {
    if |p| == 0 {
      assert p + [sep] + rest == [sep] + rest;
      assert ([sep] + rest)[1..] == rest;
    } else {
      assert (p + [sep] + rest)[1..] == p[1..] + [sep] + rest;
      SplitCons(p[1..], rest, sep);
      assert [p[0]] + p[1..] == p;
    }
  }

  /** Walking a concatenated path is walking its halves in turn, as long as
      the first half resolves. */
  lemma {:induction false} DeepGetAppend(obj: Schema, p: seq<string>, q: seq<string>, default: Schema)
    requires Resolves(obj, p)
    ensures DeepGet(obj, p + q, default) == DeepGet(DeepGet(obj, p, default), q, default)
    decreases |p|
  {
    if |p| > 0 {
      assert (p + q)[0] == p[0];
      assert (p + q)[1..] == p[1..] + q;
      DeepGetAppend(obj.keys[p[0]], p[1..], q, default);
    } else {
      assert p + q == q;
    }
  }

  /** A pointer `/k1/k2/...` of separator-free keys walks exactly those keys. */
  lemma PointerSegments(keys: seq<string>)
    requires SeparatorFree(keys, '/')
    ensures Segments(Join([""] + keys, '/')) == keys
  {
    var parts := [""] + keys;
    assert SeparatorFree(parts, '/') by {
      forall i | 0 <= i < |parts| ensures '/' !in parts[i] {
        if i > 0 { assert parts[i] == keys[i - 1]; }
      }
    }
    SplitJoin(parts, '/');
    assert parts[1..] == keys;
  }
}
