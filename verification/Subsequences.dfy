/** Order-preserving subsequences. */
module Subsequences {
  import opened QueueModel

  /** a arises from b by deleting elements. */
  ghost predicate Subsequence<T>(a: seq<T>, b: seq<T>) {
    a == [] ||
    (b != [] && (if a[0] == b[0] then Subsequence(a[1..], b[1..]) else Subsequence(a, b[1..])))
  }

  lemma {:induction false} SubsequenceRefl<T>(a: seq<T>)
    ensures Subsequence(a, a)
  {
    if a != [] {
      SubsequenceRefl(a[1..]);
    }
  }

  lemma {:induction false} SubsequenceTail<T>(a: seq<T>, b: seq<T>)
    requires a != [] && Subsequence(a, b)
    ensures Subsequence(a[1..], b)
    decreases |b|
  {
    if a[0] == b[0] {
      SubsequenceSkip(a[1..], b);
    } else {
      SubsequenceTail(a, b[1..]);
      SubsequenceSkip(a[1..], b);
    }
  }

  lemma {:induction false} SubsequenceSkip<T>(a: seq<T>, b: seq<T>)
    requires b != [] && Subsequence(a, b[1..])
    ensures Subsequence(a, b)
    decreases |b|, 0
  {
    if a != [] && a[0] == b[0] {
      SubsequenceTail(a, b[1..]);
    }
  }

  lemma {:induction false} SubsequenceLength<T>(a: seq<T>, b: seq<T>)
    requires Subsequence(a, b)
    ensures |a| <= |b|
    ensures |a| == |b| ==> a == b
    decreases |b|
  {
    if a != [] {
      if a[0] == b[0] {
        SubsequenceLength(a[1..], b[1..]);
        assert a == [a[0]] + a[1..] && b == [b[0]] + b[1..];
      } else {
        SubsequenceLength(a, b[1..]);
      }
    }
  }

  lemma {:induction false} SubsequenceTrans<T>(a: seq<T>, b: seq<T>, c: seq<T>)
    requires Subsequence(a, b) && Subsequence(b, c)
    ensures Subsequence(a, c)
    decreases |b| + |c|
  {
    if a == [] {
    } else if b[0] == c[0] {
      if a[0] == b[0] {
        SubsequenceTrans(a[1..], b[1..], c[1..]);
      } else {
        SubsequenceTrans(a, b[1..], c[1..]);
      }
    } else {
      SubsequenceTrans(a, b, c[1..]);
      SubsequenceSkip(a, c);
    }
  }

  lemma {:induction false} SubsequenceRemoveAt<T>(s: seq<T>, i: nat)
    requires i < |s|
    ensures Subsequence(RemoveAt(s, i), s)
  {
    if i == 0 {
      assert RemoveAt(s, 0) == s[1..];
      SubsequenceRefl(s[1..]);
      SubsequenceSkip(s[1..], s);
    } else {
      assert RemoveAt(s, i)[1..] == RemoveAt(s[1..], i - 1);
      SubsequenceRemoveAt(s[1..], i - 1);
    }
  }

  lemma {:induction false} SubsequenceSnoc<T>(a: seq<T>, b: seq<T>, x: T)
    requires Subsequence(a, b)
    ensures Subsequence(a + [x], b + [x])
    decreases |b|
  {
    if a == [] {
      assert a + [x] == [x];
      SubsequenceLast(b, x);
    } else {
      assert (a + [x])[1..] == a[1..] + [x] && (b + [x])[1..] == b[1..] + [x];
      if a[0] == b[0] {
        SubsequenceSnoc(a[1..], b[1..], x);
      } else {
        SubsequenceSnoc(a, b[1..], x);
      }
    }
  }

  lemma {:induction false} SubsequenceLast<T>(b: seq<T>, x: T)
    ensures Subsequence([x], b + [x])
    decreases |b|
  {
    if b == [] {
      SubsequenceRefl([x]);
      assert b + [x] == [x];
    } else {
      SubsequenceLast(b[1..], x);
      assert (b + [x])[1..] == b[1..] + [x];
      SubsequenceSkip([x], b + [x]);
    }
  }

  lemma {:induction false} SubsequenceDropMiddle<T>(a: seq<T>, b: seq<T>, c: seq<T>)
    ensures Subsequence(a + c, a + b + c)
    decreases |a| + |b|
  {
    if a != [] {
      assert (a + c)[1..] == a[1..] + c && (a + b + c)[1..] == a[1..] + b + c;
      SubsequenceDropMiddle(a[1..], b, c);
    } else if b != [] {
      assert a + c == c && (a + b + c)[1..] == a + b[1..] + c;
      SubsequenceDropMiddle(a, b[1..], c);
      SubsequenceSkip(c, a + b + c);
    } else {
      assert a + c == c && a + b + c == c;
      SubsequenceRefl(c);
    }
  }
}
