/**
 * Sequence and string operations the core relies on, written out with their
 * JavaScript meaning: `Array.prototype.filter`, pushing several arrays onto
 * one, `String.prototype.startsWith`, `includes` and `Array.prototype.join`.
 */
module Seqs {

  /** `r` can be obtained from `s` by deleting elements: it keeps their order. */
  ghost predicate IsSubsequence<T>(r: seq<T>, s: seq<T>)
    decreases |s|
  {
    r == [] ||
    (s != [] && ((r[0] == s[0] && IsSubsequence(r[1..], s[1..])) || IsSubsequence(r, s[1..])))
  }

  /**
   * `s.filter(keep)`: the elements of `s` that satisfy `keep`, in their
   * original order.
   */
  function Filter<T(!new)>(s: seq<T>, keep: T -> bool): (r: seq<T>)
    ensures |r| <= |s|
    ensures forall x :: x in r <==> x in s && keep(x)
    ensures r == [] <==> forall x :: x in s ==> !keep(x)
    ensures IsSubsequence(r, s)
  {
    if s == [] then []
    else
      var rest := Filter(s[1..], keep);
      assert s == [s[0]] + s[1..];
      if keep(s[0]) then
        assert ([s[0]] + rest)[1..] == rest;
        [s[0]] + rest
      else
        rest
  }

  /** Filtering keeps every occurrence of a kept element and none of a dropped one. */
  lemma {:induction false} FilterCount<T(!new)>(s: seq<T>, keep: T -> bool, x: T)
    ensures multiset(Filter(s, keep))[x] == if keep(x) then multiset(s)[x] else 0
  {
    if s != [] {
      FilterCount(s[1..], keep, x);
      assert s == [s[0]] + s[1..];
      assert multiset(s) == multiset([s[0]]) + multiset(s[1..]);
    }
  }

  /** The lists of `ss` appended one after another, as repeated `push(...list)` does. */
  function Flatten<T>(ss: seq<seq<T>>): seq<T>
  {
    if ss == [] then [] else Flatten(ss[..|ss| - 1]) + ss[|ss| - 1]
  }

  /** The sum of the lengths of the lists of `ss`. */
  function TotalLength<T>(ss: seq<seq<T>>): nat
  {
    if ss == [] then 0 else |ss[0]| + TotalLength(ss[1..])
  }

  lemma {:induction false} TotalLengthSnoc<T>(ss: seq<seq<T>>, t: seq<T>)
    ensures TotalLength(ss + [t]) == TotalLength(ss) + |t|
  {
    if ss == [] {
      assert ss + [t] == [t];
      assert ([t])[1..] == [];
    } else {
      assert (ss + [t])[1..] == ss[1..] + [t];
      TotalLengthSnoc(ss[1..], t);
    }
  }

  /** Flattening keeps every element, duplicates included: the length is the sum of the lengths. */
  lemma {:induction false} FlattenLength<T>(ss: seq<seq<T>>)
    ensures |Flatten(ss)| == TotalLength(ss)
  {
    if ss != [] {
      var init := ss[..|ss| - 1];
      FlattenLength(init);
      assert ss == init + [ss[|ss| - 1]];
      TotalLengthSnoc(init, ss[|ss| - 1]);
    }
  }

  /** An element occurs in the flattened list exactly when it occurs in one of the lists. */
  lemma {:induction false} FlattenMembership<T>(ss: seq<seq<T>>, x: T)
    ensures x in Flatten(ss) <==> exists i :: 0 <= i < |ss| && x in ss[i]
  {
    if ss != [] {
      var init, last := ss[..|ss| - 1], ss[|ss| - 1];
      FlattenMembership(init, x);
      assert Flatten(ss) == Flatten(init) + last;
      if x in Flatten(init) {
        var i :| 0 <= i < |init| && x in init[i];
        assert ss[i] == init[i];
      }
      if exists i :: 0 <= i < |ss| && x in ss[i] {
        var i :| 0 <= i < |ss| && x in ss[i];
        if i < |ss| - 1 {
          assert init[i] == ss[i];
        }
      }
    }
  }

  /** `s.startsWith(prefix)`. */
  predicate StartsWith<T(==)>(s: seq<T>, prefix: seq<T>)
  {
    |prefix| <= |s| && s[..|prefix|] == prefix
  }

  /** `s.includes(sub)`: `sub` occurs at some position of `s`. */
  predicate Contains<T(==)>(s: seq<T>, sub: seq<T>)
    decreases |s|
  {
    StartsWith(s, sub) || (s != [] && Contains(s[1..], sub))
  }

  /** An occurrence in `s` is still an occurrence once anything is put in front of `s`. */
  lemma {:induction false} ContainsAfter<T>(front: seq<T>, s: seq<T>, sub: seq<T>)
    requires Contains(s, sub)
    ensures Contains(front + s, sub)
  {
    if front != [] {
      assert (front + s)[1..] == front[1..] + s;
      ContainsAfter(front[1..], s, sub);
    } else {
      assert front + s == s;
    }
  }

  /** `sub` occurs in `s` starting at index `i`. */
  predicate OccursAt<T(==)>(s: seq<T>, sub: seq<T>, i: nat)
  {
    i + |sub| <= |s| && s[i..i + |sub|] == sub
  }

  /** `Contains` agrees with the positional reading: `sub` occurs at some index of `s`. */
  lemma {:induction false} ContainsIffOccurs<T>(s: seq<T>, sub: seq<T>)
    ensures Contains(s, sub) <==> exists i: nat :: OccursAt(s, sub, i)
    decreases |s|
  {
    if StartsWith(s, sub) {
      assert OccursAt(s, sub, 0);
    }
    if s != [] {
      ContainsIffOccurs(s[1..], sub);
      if Contains(s[1..], sub) {
        var i: nat :| OccursAt(s[1..], sub, i);
        assert s[i + 1..i + 1 + |sub|] == s[1..][i..i + |sub|];
        assert OccursAt(s, sub, i + 1);
      }
      if exists i: nat :: OccursAt(s, sub, i) {
        var i: nat :| OccursAt(s, sub, i);
        if i == 0 {
          assert StartsWith(s, sub);
        } else {
          assert s[1..][i - 1..i - 1 + |sub|] == s[i..i + |sub|];
          assert OccursAt(s[1..], sub, i - 1);
        }
      }
    } else {
      if exists i: nat :: OccursAt(s, sub, i) {
        var i: nat :| OccursAt(s, sub, i);
        assert StartsWith(s, sub);
      }
    }
  }

  /**
   * `parts.join(sep)`: the parts in order with `sep` between neighbours; its
   * length is that of the parts plus one separator per gap.
   */
  function Join(parts: seq<string>, sep: string): (r: string)
    ensures parts == [] ==> r == ""
    ensures parts != [] ==> |r| == TotalLength(parts) + (|parts| - 1) * |sep|
  {
    if |parts| == 0 then ""
    else if |parts| == 1 then parts[0]
    else parts[0] + sep + Join(parts[1..], sep)
  }

  /** The joined string lists every part. */
  lemma {:induction false} JoinContainsEachPart(parts: seq<string>, sep: string, i: nat)
    requires i < |parts|
    ensures Contains(Join(parts, sep), parts[i])
  {
    if i == 0 {
      var j := Join(parts, sep);
      if |parts| == 1 {
        assert j[..|parts[0]|] == parts[0];
      } else {
        assert j == parts[0] + (sep + Join(parts[1..], sep));
        assert j[..|parts[0]|] == parts[0];
      }
    } else {
      JoinContainsEachPart(parts[1..], sep, i - 1);
      assert Join(parts, sep) == (parts[0] + sep) + Join(parts[1..], sep);
      ContainsAfter(parts[0] + sep, Join(parts[1..], sep), parts[i]);
    }
  }

  /**
   * Splitting at every `sep`, as `s.split(sep)` does for a one-character
   * separator: always at least one part, and no part holds `sep`.
   */
  function Split(s: string, sep: char): (parts: seq<string>)
    ensures |parts| >= 1
    ensures forall p :: p in parts ==> sep !in p
    decreases |s|
  {
    if s == [] then [""]
    else
      var rest := Split(s[1..], sep);
      if s[0] == sep then [""] + rest
      else
        assert rest[0] in rest;
        [[s[0]] + rest[0]] + rest[1..]
  }

  lemma {:induction false} SplitWithoutSeparator(p: string, sep: char)
    requires sep !in p
    ensures Split(p, sep) == [p]
    decreases |p|
  {
    if p != [] {
      SplitWithoutSeparator(p[1..], sep);
      assert [p[0]] + p[1..] == p;
    }
  }

  lemma {:induction false} SplitAfterPart(p: string, sep: char, rest: string)
    requires sep !in p
    ensures Split(p + [sep] + rest, sep) == [p] + Split(rest, sep)
    decreases |p|
  {
    var s := p + [sep] + rest;
    if p == [] {
      assert s[1..] == rest;
    } else {
      assert s[1..] == p[1..] + [sep] + rest;
      SplitAfterPart(p[1..], sep, rest);
      assert [p[0]] + p[1..] == p;
    }
  }

  /** Joining with a one-character separator that no part holds, then splitting at it, gives the parts back. */
  lemma {:induction false} SplitJoinRoundTrip(parts: seq<string>, sep: char)
    requires parts != []
    requires forall p :: p in parts ==> sep !in p
    ensures Split(Join(parts, [sep]), sep) == parts
  {
    if |parts| == 1 {
      SplitWithoutSeparator(parts[0], sep);
    } else {
      assert parts[0] in parts;
      assert forall p :: p in parts[1..] ==> p in parts;
      SplitJoinRoundTrip(parts[1..], sep);
      SplitAfterPart(parts[0], sep, Join(parts[1..], [sep]));
      assert [parts[0]] + parts[1..] == parts;
    }
  }

  /** Deleting elements never lengthens a sequence. */
  lemma {:induction false} IsSubsequenceLength<T>(r: seq<T>, s: seq<T>)
    requires IsSubsequence(r, s)
    ensures |r| <= |s|
    decreases |s|
  {
    if r != [] {
      if r[0] == s[0] && IsSubsequence(r[1..], s[1..]) {
        IsSubsequenceLength(r[1..], s[1..]);
      } else {
        IsSubsequenceLength(r, s[1..]);
      }
    }
  }
}
