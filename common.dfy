/**
  Parsed JSON trees and the dotted-key traversal the store uses to find a
  string in a translation table (`getValue(obj, dotSeperatedKey)` of the
  common helpers). The traversal is assumed to split the key on '.' and walk
  the tree one segment at a time, giving `None` (JavaScript `undefined`) as
  soon as a segment is missing.
*/
module Common {
  import opened Wrappers

  /** A value produced by JSON.parse. `Other` stands for numbers, booleans and
      arrays: the store never looks inside them, it only returns them. */
  datatype Json = Null | Str(s: string) | Obj(fields: map<string, Json>) | Other

  /** `key.split('.')`: the pieces between the dots, empty pieces included. */
  function Split(key: string): (segs: seq<string>)
    ensures |segs| >= 1
    ensures forall i :: 0 <= i < |segs| ==> '.' !in segs[i]
    decreases |key|
  {
    if key == "" then [""]
    else if key[0] == '.' then [""] + Split(key[1..])
    else
      var rest := Split(key[1..]);
      [[key[0]] + rest[0]] + rest[1..]
  }

  /** `segs.join('.')`, the inverse of Split. */
  function Join(segs: seq<string>): string
    requires |segs| >= 1
  {
    if |segs| == 1 then segs[0] else segs[0] + "." + Join(segs[1..])
  }

  /** Walks `path` down from `t`: each segment must name a field of an object. */
  function Lookup(t: Json, path: seq<string>): (r: Option<Json>)
    ensures path == [] ==> r == Some(t)
    ensures path != [] && r.Some? ==> t.Obj? && path[0] in t.fields
    decreases |path|
  {
    if path == [] then Some(t)
    else match t
      case Obj(m) => if path[0] in m then Lookup(m[path[0]], path[1..]) else None
      case _ => None
  }

  /** The assumed `getValue(obj, dotSeperatedKey)`. */
  function GetValue(t: Json, key: string): (r: Option<Json>)
    // every key, even the empty one, names at least one field, so only an
    // object can hold a value
    ensures !t.Obj? ==> r == None
    ensures r.Some? ==> t.Obj? && Split(key)[0] in t.fields
  {
    Lookup(t, Split(key))
  }

  /** Splitting and joining again gives back the key. */
  lemma {:induction false} JoinSplit(key: string)
    ensures Join(Split(key)) == key
    decreases |key|
  {
    if key == "" {
    } else if key[0] == '.' {
      JoinSplit(key[1..]);
      assert Split(key)[1..] == Split(key[1..]);
    } else {
      JoinSplit(key[1..]);
      var rest := Split(key[1..]);
      var segs := Split(key);
      assert segs == [[key[0]] + rest[0]] + rest[1..];
      if |rest| == 1 {
        assert Join(segs) == [key[0]] + rest[0];
      } else {
        assert segs[1..] == rest[1..];
        calc {
          Join(segs);
          ([key[0]] + rest[0]) + "." + Join(rest[1..]);
          [key[0]] + (rest[0] + "." + Join(rest[1..]));
          [key[0]] + Join(rest);
        }
      }
      assert key == [key[0]] + key[1..];
    }
  }

  /** A key without dots is a single segment. */
  lemma {:induction false} SplitNoDot(key: string)
    requires '.' !in key
    ensures Split(key) == [key]
    decreases |key|
  {
    if key != "" {
      assert '.' !in key[1..] by {
        forall i | 0 <= i < |key[1..]| ensures key[1..][i] != '.' {
          assert key[1..][i] == key[i + 1];
        }
      }
      SplitNoDot(key[1..]);
      assert key == [key[0]] + key[1..];
    }
  }

  /** One step of Split on a key that starts with something other than a dot. */
  lemma SplitStep(k: string)
    requires k != "" && k[0] != '.'
    ensures Split(k) == [[k[0]] + Split(k[1..])[0]] + Split(k[1..])[1..]
  {
  }

  /** Gluing a character onto the first segment commutes with appending more segments. */
  lemma GlueFirst(c: char, head: seq<string>, tail: seq<string>)
    requires |head| >= 1
    ensures [[c] + (head + tail)[0]] + (head + tail)[1..] == ([[c] + head[0]] + head[1..]) + tail
  {
    assert (head + tail)[1..] == head[1..] + tail;
  }

  /** Splitting distributes over a dot: `(a + "." + b).split('.')` is
      `a.split('.')` followed by `b.split('.')`. */
  lemma {:induction false} SplitDot(a: string, b: string)
    ensures Split(a + "." + b) == Split(a) + Split(b)
    decreases |a|
  {
    var k := a + "." + b;
    if a == "" {
      assert k[0] == '.' && k[1..] == b;
    } else if a[0] == '.' {
      assert k[0] == '.' && k[1..] == a[1..] + "." + b;
      SplitDot(a[1..], b);
    } else {
      assert k[0] == a[0] && k[1..] == a[1..] + "." + b;
      SplitDot(a[1..], b);
      SplitStep(k);
      SplitStep(a);
      GlueFirst(a[0], Split(a[1..]), Split(b));
    }
  }

  /** Every list of dot-free segments is what splitting its join gives. */
  lemma {:induction false} SplitJoin(segs: seq<string>)
    requires |segs| >= 1
    requires forall i :: 0 <= i < |segs| ==> '.' !in segs[i]
    ensures Split(Join(segs)) == segs
    decreases |segs|
  {
    SplitNoDot(segs[0]);
    if |segs| > 1 {
      SplitJoin(segs[1..]);
      SplitDot(segs[0], Join(segs[1..]));
      assert segs == [segs[0]] + segs[1..];
    }
  }

  /** Walking a concatenated path is walking its first part, then the rest. */
  lemma {:induction false} LookupAppend(t: Json, p: seq<string>, q: seq<string>)
    ensures Lookup(t, p + q) ==
      match Lookup(t, p)
      case None => None
      case Some(u) => Lookup(u, q)
    decreases |p|
  {
    if p == [] {
      assert p + q == q;
    } else {
      assert (p + q)[0] == p[0] && (p + q)[1..] == p[1..] + q;
      if t.Obj? && p[0] in t.fields {
        LookupAppend(t.fields[p[0]], p[1..], q);
      }
    }
  }

  /** A dotted key reaches the same value as looking up its first part and
      then the rest in what was found: `getValue(t, "a.b")` is
      `getValue(getValue(t, "a"), "b")`, and it is undefined as soon as one
      step is. */
  lemma GetValueDotted(t: Json, a: string, b: string)
    ensures GetValue(t, a + "." + b) ==
      match GetValue(t, a)
      case None => None
      case Some(u) => GetValue(u, b)
  {
    SplitDot(a, b);
    LookupAppend(t, Split(a), Split(b));
  }

  /** A key without dots is a plain field access on an object, and undefined
      on anything that is not an object. */
  lemma GetValueField(t: Json, key: string)
    requires '.' !in key
    ensures GetValue(t, key) == if t.Obj? && key in t.fields then Some(t.fields[key]) else None
  {
    SplitNoDot(key);
  }
}
