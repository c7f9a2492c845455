/**
 * The realtime dashboard: the keys of the map, collected in the map's own
 * order and then sorted with `Vec::sort`, and one frame of output, a
 * progress bar followed by one `code name` line per application.
 */
module Dashboard {
  import opened Entities
  import opened Foreign
  import Totp
  import Display

  /** `Ord` on `String`: lexicographic, shorter prefix first (byte order and code-point order agree). */
  predicate LexLe(a: string, b: string)
  {
    |a| == 0 || (|b| > 0 && (a[0] < b[0] || (a[0] == b[0] && LexLe(a[1..], b[1..]))))
  }

  lemma {:induction false} LexReflexive(a: string)
    ensures LexLe(a, a)
  {
    if |a| > 0 {
      LexReflexive(a[1..]);
    }
  }

  lemma {:induction false} LexTotal(a: string, b: string)
    ensures LexLe(a, b) || LexLe(b, a)
  {
    if |a| > 0 && |b| > 0 && a[0] == b[0] {
      LexTotal(a[1..], b[1..]);
    }
  }

  lemma {:induction false} LexTransitive(a: string, b: string, c: string)
    requires LexLe(a, b) && LexLe(b, c)
    ensures LexLe(a, c)
  {
    if |a| > 0 && a[0] == b[0] && b[0] == c[0] {
      LexTransitive(a[1..], b[1..], c[1..]);
    }
  }

  lemma {:induction false} LexAntisymmetric(a: string, b: string)
    requires LexLe(a, b) && LexLe(b, a)
    ensures a == b
  {
    if |a| > 0 {
      LexAntisymmetric(a[1..], b[1..]);
      assert a == [a[0]] + a[1..] && b == [b[0]] + b[1..];
    }
  }

  ghost predicate Sorted(s: seq<string>)
  {
    forall i, j | 0 <= i < j < |s| :: LexLe(s[i], s[j])
  }

  /** Exchange `a[j - 1]` and `a[j]`, leaving every other element in place. */
  method SwapAdjacent(a: array<string>, j: nat)
    requires 0 < j < a.Length
    modifies a
    ensures a[j - 1] == old(a[j]) && a[j] == old(a[j - 1])
    ensures forall k | 0 <= k < a.Length && k != j - 1 && k != j :: a[k] == old(a[k])
    ensures multiset(a[..]) == old(multiset(a[..]))
  {
    a[j - 1], a[j] := a[j], a[j - 1];
  }

  /**
   * One pass of the sort: with `a[..i]` sorted, move `a[i]` left by adjacent
   * swaps until `a[..i + 1]` is sorted.
   */
  method InsertAt(a: array<string>, i: nat)
    requires i < a.Length
    requires forall x, y | 0 <= x < y < i :: LexLe(a[x], a[y])
    modifies a
    ensures forall x, y | 0 <= x < y <= i :: LexLe(a[x], a[y])
    ensures multiset(a[..]) == old(multiset(a[..]))
    ensures a[i + 1..] == old(a[i + 1..])
  {
    var j := i;
    while j > 0 && !LexLe(a[j - 1], a[j])
      invariant 0 <= j <= i
      invariant forall x, y | 0 <= x < y <= i && x != j && y != j :: LexLe(a[x], a[y])
      invariant forall y | j < y <= i :: LexLe(a[j], a[y])
      invariant multiset(a[..]) == old(multiset(a[..]))
      invariant forall k | i < k < a.Length :: a[k] == old(a[k])
    {
      LexTotal(a[j - 1], a[j]);
      SwapAdjacent(a, j);
      j := j - 1;
    }
    forall x, y | 0 <= x < y <= i
      ensures LexLe(a[x], a[y])
    {
      if y == j && x < j - 1 {
        LexTransitive(a[x], a[j - 1], a[j]);
      }
    }
    assert a[i + 1..] == old(a[i + 1..]);
  }

  /**
   * `keys.sort()`: sorts the vector in place.  Modelled as insertion sort
   * by adjacent swaps; the result is sorted and a permutation of the input.
   */
  method SortKeys(a: array<string>)
    modifies a
    ensures Sorted(a[..])
    ensures multiset(a[..]) == old(multiset(a[..]))
  {
    for i := 0 to a.Length
      invariant forall x, y | 0 <= x < y < i :: LexLe(a[x], a[y])
      invariant multiset(a[..]) == old(multiset(a[..]))
    {
      InsertAt(a, i);
    }
  }

  /**
   * `apps.keys().cloned().collect()`: every key once, in the map's
   * unspecified order (each step takes any key not yet visited).
   */
  method CollectKeys(apps: Applications) returns (keys: seq<string>)
    ensures multiset(keys) == multiset(apps.Keys)
  {
    keys := [];
    var unvisited := apps.Keys;
    while unvisited != {}
      invariant unvisited <= apps.Keys
      invariant multiset(keys) + multiset(unvisited) == multiset(apps.Keys)
      decreases |unvisited|
    {
      var k :| k in unvisited;
      assert multiset(unvisited) == multiset(unvisited - {k}) + multiset{k};
      keys := keys + [k];
      unvisited := unvisited - {k};
    }
  }

  /** The first element of a sorted sequence is below each of its elements. */
  lemma HeadIsLeast(s: seq<string>, x: string)
    requires Sorted(s) && x in multiset(s)
    ensures LexLe(s[0], x)
  {
    var i :| 0 <= i < |s| && s[i] == x;
    if i == 0 {
      LexReflexive(x);
    }
  }

  lemma SortedTail(s: seq<string>)
    requires Sorted(s) && s != []
    ensures Sorted(s[1..])
  {
    forall i, j | 0 <= i < j < |s| - 1
      ensures LexLe(s[1..][i], s[1..][j])
    {
      assert s[1..][i] == s[i + 1] && s[1..][j] == s[j + 1];
    }
  }

  /** Sequences with the same multiset and the same head have tails with the same multiset. */
  lemma MultisetTail(s: seq<string>, t: seq<string>)
    requires s != [] && t != [] && s[0] == t[0] && multiset(s) == multiset(t)
    ensures multiset(s[1..]) == multiset(t[1..])
  {
    assert s == [s[0]] + s[1..];
    assert t == [t[0]] + t[1..];
    var head, restS, restT := multiset{s[0]}, multiset(s[1..]), multiset(t[1..]);
    assert multiset(s) == head + restS;
    assert multiset(t) == head + restT;
    forall x
      ensures restS[x] == restT[x]
    {
      assert (head + restS)[x] == head[x] + restS[x];
      assert (head + restT)[x] == head[x] + restT[x];
    }
    assert restS == restT;
  }

  /**
   * A multiset has one sorted arrangement: the dashboard's order does not
   * depend on the order in which the map yields its keys.
   */
  lemma {:induction false} SortedArrangementUnique(s: seq<string>, t: seq<string>)
    requires Sorted(s) && Sorted(t) && multiset(s) == multiset(t)
    ensures s == t
  {
    if s != [] {
      assert s[0] in multiset(t);
      assert t != [];
      assert t[0] in multiset(s);
      HeadIsLeast(s, t[0]);
      HeadIsLeast(t, s[0]);
      LexAntisymmetric(s[0], t[0]);
      MultisetTail(s, t);
      SortedTail(s);
      SortedTail(t);
      SortedArrangementUnique(s[1..], t[1..]);
    }
  }

  /** A sequence with the same multiset as the key set has one entry per key, each of them a key. */
  lemma ArrangementOfKeys(keys: seq<string>, apps: Applications)
    requires multiset(keys) == multiset(apps.Keys)
    ensures |keys| == |apps| && forall i | 0 <= i < |keys| :: keys[i] in apps
  {
    assert |multiset(keys)| == |keys|;
    assert |multiset(apps.Keys)| == |apps.Keys|;
    forall i | 0 <= i < |keys|
      ensures keys[i] in apps
    {
      assert keys[i] in multiset(keys);
    }
  }

  /** The dashboard's key order: the map's keys, sorted. */
  method SortedKeys(apps: Applications) returns (keys: seq<string>)
    ensures Sorted(keys) && multiset(keys) == multiset(apps.Keys)
    ensures |keys| == |apps| && forall i | 0 <= i < |keys| :: keys[i] in apps
  {
    var collected := CollectKeys(apps);
    var a := new string[|collected|](i requires 0 <= i < |collected| => collected[i]);
    assert a[..] == collected;
    SortKeys(a);
    keys := a[..];
    ArrangementOfKeys(keys, apps);
  }

  /**
   * One frame: the progress bar, then `"{code} {name}"` for each key in
   * `keys`.  Every code reads the clock anew, so line i + 1 uses its own
   * reading `seconds[i]`, and two lines of one frame may fall in different
   * 30-second windows.  `lines_count` (the number of lines the cursor moves
   * up before redrawing) is the frame's height.
   */
  function Frame(p: Primitives, apps: Applications, keys: seq<string>, ms: nat, seconds: seq<nat>): (frame: seq<string>)
    requires forall i | 0 <= i < |keys| :: keys[i] in apps
    requires |seconds| == |keys|
    ensures |frame| == |keys| + 1 && frame[0] == Display.ProgressBar(ms)
    ensures forall i | 0 <= i < |keys| ::
              frame[i + 1] == Totp.Code(p, apps[keys[i]].secretBytes, seconds[i]) + " " + apps[keys[i]].name
  {
    [Display.ProgressBar(ms)]
    + seq(|keys|, i requires 0 <= i < |keys| => Totp.Code(p, apps[keys[i]].secretBytes, seconds[i]) + " " + apps[keys[i]].name)
  }

  /**
   * A frame whose clock readings all fall in one 30-second window shows,
   * for every entry, the code of the first reading; readings that cross a
   * window boundary are what lets one frame mix codes of two windows.
   */
  lemma FrameWithinOneWindow(p: Primitives, apps: Applications, keys: seq<string>, ms: nat, seconds: seq<nat>)
    requires forall i | 0 <= i < |keys| :: keys[i] in apps
    requires |seconds| == |keys|
    requires forall i | 0 <= i < |seconds| :: seconds[i] / Totp.STEP == seconds[0] / Totp.STEP
    ensures forall i | 0 <= i < |keys| ::
              Frame(p, apps, keys, ms, seconds)[i + 1] == Totp.Code(p, apps[keys[i]].secretBytes, seconds[0]) + " " + apps[keys[i]].name
  {
    forall i | 0 <= i < |keys|
      ensures Frame(p, apps, keys, ms, seconds)[i + 1] == Totp.Code(p, apps[keys[i]].secretBytes, seconds[0]) + " " + apps[keys[i]].name
    {
      Totp.SameWindowSameCode(p, apps[keys[i]].secretBytes, seconds[i], seconds[0]);
    }
  }
}
