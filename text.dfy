/**
 * String and sequence helpers with JavaScript semantics: `Array.prototype.join`,
 * `String.prototype.split` on a one-character separator, `flat`, `filter` and `map`.
 */
module Text {

  /** `parts.join(sep)`: the parts with `sep` between neighbours. */
  function Join(parts: seq<string>, sep: string): string
  {
    if |parts| == 0 then ""
    else if |parts| == 1 then parts[0]
    else Join(parts[..|parts| - 1], sep) + sep + parts[|parts| - 1]
  }

  /** `s.split(sep)` for a one-character separator: every occurrence splits, empty pieces are kept. */
  function Split(s: string, sep: char): (parts: seq<string>)
    ensures |parts| >= 1
    ensures forall i :: 0 <= i < |parts| ==> sep !in parts[i]
  {
    if |s| == 0 then [""]
    else
      var prev := Split(s[..|s| - 1], sep);
      if s[|s| - 1] == sep then prev + [""]
      else prev[..|prev| - 1] + [prev[|prev| - 1] + [s[|s| - 1]]]
  }

  /** Concatenation of strings, `parts.join("")`. */
  function Concat(parts: seq<string>): string
  {
    Join(parts, "")
  }

  /** `xss.flat()`: the inner sequences one after another. */
  function Flatten<T>(xss: seq<seq<T>>): seq<T>
  {
    if |xss| == 0 then [] else Flatten(xss[..|xss| - 1]) + xss[|xss| - 1]
  }

  /** `xs.map(f)`. */
  function Map<T, U>(f: T -> U, xs: seq<T>): (ys: seq<U>)
    ensures |ys| == |xs|
    ensures forall i :: 0 <= i < |xs| ==> ys[i] == f(xs[i])
  {
    seq(|xs|, i requires 0 <= i < |xs| => f(xs[i]))
  }

  /** `xs.filter(p)`: the elements satisfying `p`, in their original order. */
  function Filter<T>(p: T -> bool, xs: seq<T>): seq<T>
  {
    if |xs| == 0 then []
    else (if p(xs[0]) then [xs[0]] else []) + Filter(p, xs[1..])
  }

  // ---------------------------------------------------------------------------
  // join / split

  /** Splitting on a character and joining with that character gives the string back. */
  lemma {:induction false} JoinSplit(s: string, sep: char)
    ensures Join(Split(s, sep), [sep]) == s
  {
    if |s| > 0 {
      var init, c := s[..|s| - 1], s[|s| - 1];
      assert s == init + [c];
      var prev := Split(init, sep);
      JoinSplit(init, sep);
      if c == sep {
        var r := prev + [""];
        assert r[..|r| - 1] == prev;
        assert Join(r, [sep]) == Join(prev, [sep]) + [sep] + "";
      } else if |prev| == 1 {
        assert Split(s, sep) == [prev[0] + [c]];
      } else {
        var front, last := prev[..|prev| - 1], prev[|prev| - 1];
        var r := front + [last + [c]];
        assert Split(s, sep) == r;
        assert r[..|r| - 1] == front;
        assert Join(r, [sep]) == Join(front, [sep]) + [sep] + (last + [c]);
        assert Join(prev, [sep]) == Join(front, [sep]) + [sep] + last;
      }
    }
  }

  lemma {:induction false} SplitWithoutSeparator(w: string, sep: char)
    requires sep !in w
    ensures Split(w, sep) == [w]
  {
    if |w| > 0 {
      SplitWithoutSeparator(w[..|w| - 1], sep);
      assert w[..|w| - 1] + [w[|w| - 1]] == w;
    }
  }

  lemma {:induction false} SplitAppend(s: string, sep: char, w: string)
    requires sep !in w
    ensures Split(s + [sep] + w, sep) == Split(s, sep) + [w]
  {
    if |w| == 0 {
      assert s + [sep] + w == s + [sep];
      assert (s + [sep])[..|s|] == s;
    } else {
      var w' := w[..|w| - 1];
      SplitAppend(s, sep, w');
      var t := s + [sep] + w;
      assert t[..|t| - 1] == s + [sep] + w';
      assert w' + [w[|w| - 1]] == w;
    }
  }

  /** Joining pieces that do not contain the separator and splitting again gives the pieces back. */
  lemma {:induction false} SplitJoin(parts: seq<string>, sep: char)
    requires |parts| >= 1
    requires forall i :: 0 <= i < |parts| ==> sep !in parts[i]
    ensures Split(Join(parts, [sep]), sep) == parts
  {
    if |parts| == 1 {
      SplitWithoutSeparator(parts[0], sep);
    } else {
      var init := parts[..|parts| - 1];
      SplitJoin(init, sep);
      SplitAppend(Join(init, [sep]), sep, parts[|parts| - 1]);
      assert init + [parts[|parts| - 1]] == parts;
    }
  }

  /** Joining two non-empty lists puts one separator between their joins. */
  lemma {:induction false} JoinAppend(a: seq<string>, b: seq<string>, sep: string)
    requires |a| >= 1 && |b| >= 1
    ensures Join(a + b, sep) == Join(a, sep) + sep + Join(b, sep)
  {
    if |b| == 1 {
      assert (a + b)[..|a + b| - 1] == a;
    } else {
      var b' := b[..|b| - 1];
      JoinAppend(a, b', sep);
      assert (a + b)[..|a + b| - 1] == a + b';
    }
  }

  /** A join of two or more parts starts with the first part and a separator. */
  lemma JoinFront(parts: seq<string>, sep: string)
    requires |parts| >= 2
    ensures Join(parts, sep) == parts[0] + sep + Join(parts[1..], sep)
  {
    JoinAppend([parts[0]], parts[1..], sep);
    assert [parts[0]] + parts[1..] == parts;
  }

  /** A join with a non-empty separator is empty exactly when there is at most one part and it is empty. */
  lemma {:induction false} JoinEmpty(parts: seq<string>, sep: string)
    requires sep != ""
    ensures Join(parts, sep) == "" <==> |parts| == 0 || (|parts| == 1 && parts[0] == "")
  {
    if |parts| >= 2 {
      assert |Join(parts, sep)| >= |sep|;
    }
  }

  /** Concatenation of strings that are all empty is empty, and of a list with a non-empty string is not. */
  lemma {:induction false} ConcatEmpty(parts: seq<string>)
    ensures Concat(parts) == "" <==> forall i :: 0 <= i < |parts| ==> parts[i] == ""
  {
    if |parts| >= 2 {
      var init := parts[..|parts| - 1];
      ConcatEmpty(init);
      assert Concat(parts) == Concat(init) + parts[|parts| - 1];
      assert forall i :: 0 <= i < |init| ==> init[i] == parts[i];
    }
  }

  /** Appending a string to the parts appends it to their concatenation. */
  lemma ConcatAppend(parts: seq<string>, p: string)
    ensures Concat(parts + [p]) == Concat(parts) + p
  {
    assert (parts + [p])[..|parts|] == parts;
  }

  // ---------------------------------------------------------------------------
  // flatten

  lemma {:induction false} FlattenAppend<T>(xss: seq<seq<T>>, ys: seq<T>)
    ensures Flatten(xss + [ys]) == Flatten(xss) + ys
  {
    assert (xss + [ys])[..|xss|] == xss;
  }

  lemma {:induction false} FlattenNonEmpty<T>(xss: seq<seq<T>>)
    requires |xss| >= 1 && |xss[|xss| - 1]| >= 1
    ensures |Flatten(xss)| >= 1
  {
  }

  /** The join of every group, `groups.map(g => g.join(sep))`. */
  function JoinEach(groups: seq<seq<string>>, sep: string): (r: seq<string>)
    ensures |r| == |groups|
    ensures forall k :: 0 <= k < |groups| ==> r[k] == Join(groups[k], sep)
  {
    if |groups| == 0 then [] else JoinEach(groups[..|groups| - 1], sep) + [Join(groups[|groups| - 1], sep)]
  }

  /** The join of each group, joined again, is the join of all groups' elements together. */
  lemma {:induction false} JoinFlatten(groups: seq<seq<string>>, sep: string)
    requires forall k :: 0 <= k < |groups| ==> |groups[k]| >= 1
    ensures Join(Flatten(groups), sep) == Join(JoinEach(groups, sep), sep)
  {
    if |groups| >= 2 {
      var init := groups[..|groups| - 1];
      var last := groups[|groups| - 1];
      JoinFlatten(init, sep);
      FlattenNonEmpty(init);
      JoinAppend(Flatten(init), last, sep);
      var m := JoinEach(groups, sep);
      assert m[..|m| - 1] == JoinEach(init, sep);
    } else if |groups| == 1 {
      assert Flatten(groups) == groups[0];
    }
  }

  // ---------------------------------------------------------------------------
  // filter

  /**
   * What `filter` keeps: the positions `picked` of the kept elements, strictly
   * increasing, are exactly the positions whose element satisfies `p`.
   */
  lemma {:induction false} FilterSelects<T>(p: T -> bool, xs: seq<T>) returns (picked: seq<nat>)
    ensures |picked| == |Filter(p, xs)|
    ensures forall j :: 0 <= j < |picked| ==> picked[j] < |xs| && Filter(p, xs)[j] == xs[picked[j]]
    ensures forall j, k :: 0 <= j < k < |picked| ==> picked[j] < picked[k]
    ensures forall i :: 0 <= i < |xs| ==> (i in picked <==> p(xs[i]))
  {
    if |xs| == 0 {
      picked := [];
    } else {
      var tail := xs[1..];
      var rest := FilterSelects(p, tail);
      var shifted := Shifted(rest);
      var head: seq<nat> := if p(xs[0]) then [0] else [];
      picked := head + shifted;
      assert Filter(p, xs) == (if p(xs[0]) then [xs[0]] else []) + Filter(p, tail);
      forall j | |head| <= j < |picked|
        ensures picked[j] < |xs| && Filter(p, xs)[j] == xs[picked[j]]
      {
        assert tail[rest[j - |head|]] == xs[picked[j]];
      }
      forall i | 0 < i < |xs|
        ensures i in picked <==> p(xs[i])
      {
        assert xs[i] == tail[i - 1];
      }
      forall j, k | 0 <= j < k < |picked|
        ensures picked[j] < picked[k]
      {
        if j >= |head| {
          assert rest[j - |head|] < rest[k - |head|];
        }
      }
    }
  }

  /** Every position moved one to the right. */
  lemma Shifted(positions: seq<nat>) returns (shifted: seq<nat>)
    ensures |shifted| == |positions|
    ensures forall j :: 0 <= j < |positions| ==> shifted[j] == positions[j] + 1
    ensures 0 !in shifted
    ensures forall i: nat :: i in shifted <==> i > 0 && i - 1 in positions
  {
    shifted := seq(|positions|, j requires 0 <= j < |positions| => positions[j] + 1);
    forall i: nat | i > 0 && i - 1 in positions
      ensures i in shifted
    {
      var j :| 0 <= j < |positions| && positions[j] == i - 1;
      assert shifted[j] == i;
    }
  }

  /** `filter` keeps exactly the elements that pass, and nothing else. */
  lemma {:induction false} FilterMembers<T>(p: T -> bool, xs: seq<T>)
    ensures |Filter(p, xs)| <= |xs|
    ensures forall i :: 0 <= i < |Filter(p, xs)| ==> Filter(p, xs)[i] in xs && p(Filter(p, xs)[i])
    ensures forall i :: 0 <= i < |xs| && p(xs[i]) ==> xs[i] in Filter(p, xs)
  {
    if |xs| > 0 {
      FilterMembers(p, xs[1..]);
      var rest := Filter(p, xs[1..]);
      assert Filter(p, xs) == (if p(xs[0]) then [xs[0]] else []) + rest;
      assert forall i :: 1 <= i < |xs| ==> xs[i] == xs[1..][i - 1];
    }
  }

  /** A weaker test keeps at least as many elements. */
  lemma {:induction false} FilterMonotone<T>(p: T -> bool, q: T -> bool, xs: seq<T>)
    requires forall x :: p(x) ==> q(x)
    ensures |Filter(p, xs)| <= |Filter(q, xs)|
  {
    if |xs| > 0 {
      FilterMonotone(p, q, xs[1..]);
    }
  }
}
