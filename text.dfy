/** Strings and ordered string maps as the plugin's PHP code uses them:
    `Str::contains`, `implode` and a string-keyed PHP array. */
module Text {

  datatype Option<T> = None | Some(value: T)

  /** An ordered map from names to values: a PHP array with string keys,
      as `Dotenv::parse` returns it and `array_merge` combines it. */
  type Env = seq<(string, string)>

  function Keys(e: Env): seq<string>
  {
    seq(|e|, i requires 0 <= i < |e| => e[i].0)
  }

  predicate HasKey(e: Env, k: string)
  {
    k in Keys(e)
  }

  /** A PHP array never holds a key twice. */
  ghost predicate DistinctKeys(e: Env)
  {
    forall i, j :: 0 <= i < j < |e| ==> e[i].0 != e[j].0
  }

  /** `$e[$k] ?? null`: the value stored under `k`, if any. */
  function Lookup(e: Env, k: string): Option<string>
  {
    if e == [] then None
    else if e[0].0 == k then Some(e[0].1)
    else Lookup(e[1..], k)
  }

  /** The entries whose key is not `k`, in their original order. */
  function Without(e: Env, k: string): Env
  {
    if e == [] then []
    else if e[0].0 == k then Without(e[1..], k)
    else [e[0]] + Without(e[1..], k)
  }

  /** Every entry stored under `k` gets the value `v`; all others stay as they are. */
  function Replace(e: Env, k: string, v: string): (r: Env)
    ensures |r| == |e|
    ensures forall i :: 0 <= i < |e| ==> r[i] == (if e[i].0 == k then (k, v) else e[i])
  {
    if e == [] then []
    else [if e[0].0 == k then (k, v) else e[0]] + Replace(e[1..], k, v)
  }

  /** `array_merge($e, [$k => $v])` for a string key: an existing key keeps its
      position and takes the new value, a missing key is appended at the end. */
  function Put(e: Env, k: string, v: string): (r: Env)
    ensures Keys(r) == if HasKey(e, k) then Keys(e) else Keys(e) + [k]
    ensures DistinctKeys(e) ==> DistinctKeys(r)
  {
    if HasKey(e, k) then KeysReplace(e, k, v); Replace(e, k, v)
    else KeysAppend(e, k, v); e + [(k, v)]
  }

  lemma KeysReplace(e: Env, k: string, v: string)
    ensures Keys(Replace(e, k, v)) == Keys(e)
    ensures DistinctKeys(e) ==> DistinctKeys(Replace(e, k, v))
  {
    var r := Replace(e, k, v);
    assert forall i :: 0 <= i < |e| ==> r[i].0 == e[i].0;
  }

  lemma KeysAppend(e: Env, k: string, v: string)
    requires !HasKey(e, k)
    ensures Keys(e + [(k, v)]) == Keys(e) + [k]
    ensures DistinctKeys(e) ==> DistinctKeys(e + [(k, v)])
  {
    var r := e + [(k, v)];
    assert forall i :: 0 <= i < |e| ==> r[i] == e[i] && Keys(e)[i] == e[i].0;
  }

  lemma {:induction false} LookupReplace(e: Env, k: string, v: string, q: string)
    ensures Lookup(Replace(e, k, v), q) == if q == k && HasKey(e, k) then Some(v) else Lookup(e, q)
  {
    if e != [] {
      var head := if e[0].0 == k then (k, v) else e[0];
      var tail := Replace(e[1..], k, v);
      assert Replace(e, k, v) == [head] + tail;
      assert ([head] + tail)[1..] == tail;
      assert Keys(e) == [e[0].0] + Keys(e[1..]);
      assert HasKey(e, k) <==> e[0].0 == k || HasKey(e[1..], k);
      LookupReplace(e[1..], k, v, q);
    }
  }

  lemma {:induction false} LookupAppend(e: Env, k: string, v: string, q: string)
    ensures Lookup(e + [(k, v)], q) == if HasKey(e, q) then Lookup(e, q) else if q == k then Some(v) else None
  {
    if e == [] {
      assert [(k, v)][1..] == [];
    } else {
      LookupAppend(e[1..], k, v, q);
      assert (e + [(k, v)])[1..] == e[1..] + [(k, v)];
      assert Keys(e) == [e[0].0] + Keys(e[1..]);
    }
  }

  /** After the merge, `k` reads `v` and every other key reads what it read before. */
  lemma PutLookup(e: Env, k: string, v: string, q: string)
    ensures Lookup(Put(e, k, v), q) == if q == k then Some(v) else Lookup(e, q)
  {
    if HasKey(e, k) {
      LookupReplace(e, k, v, q);
    } else {
      LookupAppend(e, k, v, q);
      if HasKey(e, q) {
      } else {
        LookupAbsent(e, q);
      }
    }
  }

  lemma {:induction false} LookupAbsent(e: Env, q: string)
    requires !HasKey(e, q)
    ensures Lookup(e, q) == None
  {
    if e != [] {
      assert Keys(e) == [e[0].0] + Keys(e[1..]);
      LookupAbsent(e[1..], q);
    }
  }

  lemma {:induction false} WithoutReplace(e: Env, k: string, v: string)
    ensures Without(Replace(e, k, v), k) == Without(e, k)
  {
    if e != [] {
      WithoutReplace(e[1..], k, v);
      assert Replace(e, k, v)[1..] == Replace(e[1..], k, v);
    }
  }

  lemma {:induction false} WithoutAppend(e: Env, k: string, v: string)
    ensures Without(e + [(k, v)], k) == Without(e, k)
  {
    if e == [] {
      assert [(k, v)][1..] == [];
    } else {
      WithoutAppend(e[1..], k, v);
      assert (e + [(k, v)])[1..] == e[1..] + [(k, v)];
    }
  }

  /** The merge leaves every other entry, and the order of the other entries, unchanged. */
  lemma PutKeepsOthers(e: Env, k: string, v: string)
    ensures Without(Put(e, k, v), k) == Without(e, k)
  {
    if HasKey(e, k) {
      WithoutReplace(e, k, v);
    } else {
      WithoutAppend(e, k, v);
    }
  }

  /** Merging the same entry twice is the same as merging it once. */
  lemma PutIdempotent(e: Env, k: string, v: string)
    ensures Put(Put(e, k, v), k, v) == Put(e, k, v)
  {
    var once := Put(e, k, v);
    if HasKey(e, k) {
      assert forall i :: 0 <= i < |once| && once[i].0 == k ==> once[i] == (k, v);
    } else {
      assert Keys(once)[|e|] == k;
      forall i | 0 <= i < |e| ensures e[i].0 != k {
        assert Keys(e)[i] == e[i].0;
      }
    }
    assert Replace(once, k, v) == once;
  }

  /** A key that only the last entry holds is overwritten there, and nothing else moves. */
  lemma PutOverLast(e: Env, k: string, was: string, v: string)
    requires !HasKey(e, k)
    ensures Put(e + [(k, was)], k, v) == e + [(k, v)]
  {
    var e' := e + [(k, was)];
    assert Keys(e')[|e|] == k;
    forall i | 0 <= i < |e|
      ensures e'[i].0 != k
    {
      assert Keys(e)[i] == e[i].0;
    }
  }

  /** `needle` occurs in `haystack` starting at position `i`. */
  ghost predicate OccursAt(haystack: string, needle: string, i: nat)
  {
    i + |needle| <= |haystack| && haystack[i..i + |needle|] == needle
  }

  lemma OccursAtShift(haystack: string, needle: string, i: nat)
    requires |haystack| > 0
    ensures OccursAt(haystack[1..], needle, i) <==> OccursAt(haystack, needle, i + 1)
  {
    if i + 1 + |needle| <= |haystack| {
      assert haystack[1..][i..i + |needle|] == haystack[i + 1..i + 1 + |needle|];
    }
  }

  /** A left-to-right scan for `needle`. */
  function Occurs(haystack: string, needle: string): (r: bool)
    decreases |haystack|
    ensures r <==> exists i: nat :: OccursAt(haystack, needle, i)
  {
    if |needle| > |haystack| then false
    else if haystack[..|needle|] == needle then assert OccursAt(haystack, needle, 0); true
    else
      var rest := Occurs(haystack[1..], needle);
      assert rest <==> exists i: nat :: OccursAt(haystack, needle, i) by {
        forall i: nat ensures OccursAt(haystack[1..], needle, i) <==> OccursAt(haystack, needle, i + 1) {
          OccursAtShift(haystack, needle, i);
        }
        if exists i: nat :: OccursAt(haystack, needle, i) {
          var i: nat :| OccursAt(haystack, needle, i);
          assert i != 0;
          assert OccursAt(haystack[1..], needle, i - 1);
        }
      }
      rest
  }

  /** `Str::contains($haystack, $needle)`: an empty needle is never contained. */
  function Contains(haystack: string, needle: string): (r: bool)
    ensures r <==> needle != [] && exists i: nat :: OccursAt(haystack, needle, i)
  {
    needle != [] && Occurs(haystack, needle)
  }

  /** `implode($sep, $parts)`. */
  function Join(sep: string, parts: seq<string>): string
  {
    if parts == [] then ""
    else if |parts| == 1 then parts[0]
    else parts[0] + sep + Join(sep, parts[1..])
  }

  lemma OccursInSuffix(prefix: string, s: string, needle: string, i: nat)
    requires OccursAt(s, needle, i)
    ensures OccursAt(prefix + s, needle, |prefix| + i)
  {
    assert (prefix + s)[|prefix| + i..|prefix| + i + |needle|] == s[i..i + |needle|];
  }

  lemma OccursInPrefix(s: string, suffix: string, needle: string, i: nat)
    requires OccursAt(s, needle, i)
    ensures OccursAt(s + suffix, needle, i)
  {
    assert (s + suffix)[i..i + |needle|] == s[i..i + |needle|];
  }

  /** `s` ends with `suffix`. */
  predicate EndsWith<T(==)>(s: seq<T>, suffix: seq<T>)
  {
    |suffix| <= |s| && s[|s| - |suffix|..] == suffix
  }

  /** Every part shows up in the joined string. */
  lemma {:induction false} JoinNamesEveryPart(sep: string, parts: seq<string>, k: nat)
    requires k < |parts|
    ensures exists i: nat :: OccursAt(Join(sep, parts), parts[k], i)
  {
    if |parts| == 1 {
      assert OccursAt(Join(sep, parts), parts[k], 0);
    } else if k == 0 {
      assert Join(sep, parts)[..|parts[0]|] == parts[0];
      assert OccursAt(Join(sep, parts), parts[k], 0);
    } else {
      JoinNamesEveryPart(sep, parts[1..], k - 1);
      assert parts[1..][k - 1] == parts[k];
      var i: nat :| OccursAt(Join(sep, parts[1..]), parts[k], i);
      OccursInSuffix(parts[0] + sep, Join(sep, parts[1..]), parts[k], i);
      assert Join(sep, parts) == (parts[0] + sep) + Join(sep, parts[1..]);
      assert OccursAt(Join(sep, parts), parts[k], |parts[0] + sep| + i);
    }
  }
}
