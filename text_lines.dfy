/**
  Splitting text into '\n'-terminated lines and joining lines back into text.
  The numbered listing of shader sources is specified in these terms.
*/
module TextLines {

  const NL: char := '\n'

  /** Number of newline characters in `t`. */
  function NewlineCount(t: seq<char>): nat
  {
    multiset(t)[NL]
  }

  /** Index of the first newline of `t`. */
  function FirstNL(t: seq<char>): (k: nat)
    requires NL in t
    ensures k < |t| && t[k] == NL && NL !in t[..k]
  {
    if t[0] == NL then 0 else 1 + FirstNL(t[1..])
  }

  /** Any index that holds a newline with no newline before it is the first one. */
  lemma FirstNLUnique(t: seq<char>, k: nat)
    requires k < |t| && t[k] == NL && NL !in t[..k]
    ensures FirstNL(t) == k
  {
  }

  /**
    The complete lines of `t`: every segment that is followed by a newline, without
    that newline. Text after the last newline is not a complete line.
  */
  function CompleteLines(t: seq<char>): (ls: seq<seq<char>>)
    ensures forall j :: 0 <= j < |ls| ==> NL !in ls[j]
    decreases |t|
  {
    if NL !in t then []
    else
      var k := FirstNL(t);
      [t[..k]] + CompleteLines(t[k + 1..])
  }

  /** There is one complete line per newline. */
  lemma {:induction false} CompleteLinesCount(t: seq<char>)
    ensures |CompleteLines(t)| == NewlineCount(t)
    decreases |t|
  {
    if NL !in t {
      assert multiset(t)[NL] == 0;
    } else {
      var k := FirstNL(t);
      CompleteLinesCount(t[k + 1..]);
      assert t == t[..k] + [NL] + t[k + 1..];
      assert multiset(t) == multiset(t[..k]) + multiset{NL} + multiset(t[k + 1..]);
      assert multiset(t[..k])[NL] == 0;
    }
  }

  /** The text after the last newline of `t` (all of `t` when it has none). */
  function Rest(t: seq<char>): (r: seq<char>)
    ensures NL !in r
    decreases |t|
  {
    if NL !in t then t else Rest(t[FirstNL(t) + 1..])
  }

  /** Writes each line followed by a newline. */
  function JoinLines(ls: seq<seq<char>>): seq<char>
  {
    if ls == [] then [] else JoinLines(ls[..|ls| - 1]) + ls[|ls| - 1] + [NL]
  }

  predicate NoNewlines(ls: seq<seq<char>>)
  {
    forall j :: 0 <= j < |ls| ==> NL !in ls[j]
  }

  /** Joined text is empty or ends with a newline. */
  lemma JoinLinesEnd(ls: seq<seq<char>>)
    ensures ls == [] ==> JoinLines(ls) == []
    ensures ls != [] ==> |JoinLines(ls)| > 0 && JoinLines(ls)[|JoinLines(ls)| - 1] == NL
  {
  }

  /** Joining is a homomorphism from concatenation of line lists to concatenation of text. */
  lemma {:induction false} JoinLinesAppend(a: seq<seq<char>>, b: seq<seq<char>>)
    ensures JoinLines(a + b) == JoinLines(a) + JoinLines(b)
    decreases |b|
  {
    if b == [] {
      assert a + b == a;
    } else {
      var b' := b[..|b| - 1];
      assert (a + b)[..|a + b| - 1] == a + b';
      JoinLinesAppend(a, b');
    }
  }

  /** The first line comes first in the joined text. */
  lemma JoinLinesCons(x: seq<char>, ls: seq<seq<char>>)
    ensures JoinLines([x] + ls) == x + [NL] + JoinLines(ls)
  {
    JoinLinesAppend([x], ls);
    assert JoinLines([x]) == JoinLines([]) + x + [NL];
  }

  /** A line in front of joined lines and a rest. */
  lemma JoinLinesConsRest(t: seq<char>, head: seq<char>, tail: seq<char>, ls: seq<seq<char>>, r: seq<char>)
    requires JoinLines(ls) + r == tail
    requires t == head + [NL] + tail
    ensures JoinLines([head] + ls) + r == t
  {
    JoinLinesCons(head, ls);
    assert JoinLines([head] + ls) + r == head + [NL] + (JoinLines(ls) + r);
  }

  /** Text without a newline adds no complete line. */
  lemma {:induction false} CompleteLinesNoNewlineSuffix(u: seq<char>, v: seq<char>)
    requires NL !in v
    ensures CompleteLines(u + v) == CompleteLines(u)
    decreases |u|
  {
    if NL !in u {
      assert NL !in u + v;
    } else {
      var k := FirstNL(u);
      assert (u + v)[..k] == u[..k];
      FirstNLUnique(u + v, k);
      assert (u + v)[k + 1..] == u[k + 1..] + v;
      CompleteLinesNoNewlineSuffix(u[k + 1..], v);
    }
  }

  /** Unfolding `CompleteLines` at the first newline `k`. */
  lemma CompleteLinesAt(t: seq<char>, k: nat)
    requires k < |t| && t[k] == NL && NL !in t[..k]
    ensures CompleteLines(t) == [t[..k]] + CompleteLines(t[k + 1..])
  {
    FirstNLUnique(t, k);
  }

  /**
    Appending a segment `w` and a newline after text that is empty or ends with a
    newline adds exactly `w` as the next complete line.
  */
  lemma {:induction false} CompleteLinesSnoc(u: seq<char>, w: seq<char>)
    requires u == [] || u[|u| - 1] == NL
    requires NL !in w
    ensures CompleteLines(u + w + [NL]) == CompleteLines(u) + [w]
    decreases |u|
  {
    if u == [] {
      var t := w + [NL];
      assert t[..|w|] == w;
      assert t[|w| + 1..] == [];
      CompleteLinesAt(t, |w|);
      assert u + w + [NL] == t;
    } else {
      assert NL in u by { assert u[|u| - 1] == NL; }
      var k := FirstNL(u);
      var u' := u[k + 1..];
      assert u' == [] || u'[|u'| - 1] == NL;
      CompleteLinesSnoc(u', w);
      CompleteLinesSnocStep(u, w, k);
    }
  }

  lemma CompleteLinesSnocStep(u: seq<char>, w: seq<char>, k: nat)
    requires k < |u| && u[k] == NL && NL !in u[..k]
    requires CompleteLines(u[k + 1..] + w + [NL]) == CompleteLines(u[k + 1..]) + [w]
    ensures CompleteLines(u + w + [NL]) == CompleteLines(u) + [w]
  {
    var t := u + w + [NL];
    assert t[..k] == u[..k];
    assert t[k + 1..] == u[k + 1..] + w + [NL];
    CompleteLinesAt(t, k);
    CompleteLinesAt(u, k);
  }

  /** Round trip: the complete lines of joined newline-free lines are those lines. */
  lemma {:induction false} CompleteLinesOfJoin(ls: seq<seq<char>>)
    requires NoNewlines(ls)
    ensures CompleteLines(JoinLines(ls)) == ls
    decreases |ls|
  {
    if ls != [] {
      var init, last := ls[..|ls| - 1], ls[|ls| - 1];
      assert NoNewlines(init);
      CompleteLinesOfJoin(init);
      CompleteLinesOfJoinStep(init, last);
      assert init + [last] == ls;
    }
  }

  lemma CompleteLinesOfJoinStep(init: seq<seq<char>>, last: seq<char>)
    requires CompleteLines(JoinLines(init)) == init
    requires NL !in last
    ensures CompleteLines(JoinLines(init + [last])) == init + [last]
  {
    var u := JoinLines(init);
    JoinLinesEnd(init);
    CompleteLinesSnoc(u, last);
    assert (init + [last])[..|init|] == init;
  }

  /** Joined text has nothing after its last newline. */
  lemma {:induction false} RestOfJoin(ls: seq<seq<char>>)
    requires NoNewlines(ls)
    ensures Rest(JoinLines(ls)) == []
    decreases |ls|
  {
    if ls != [] {
      var x := ls[0];
      JoinLinesCons(x, ls[1..]);
      assert [x] + ls[1..] == ls;
      var t := JoinLines(ls);
      assert t[..|x|] == x;
      FirstNLUnique(t, |x|);
      assert t[|x| + 1..] == JoinLines(ls[1..]);
      RestOfJoin(ls[1..]);
    }
  }

  /** Round trip the other way: text is its complete lines joined, then the rest. */
  lemma {:induction false} JoinOfCompleteLines(t: seq<char>)
    ensures JoinLines(CompleteLines(t)) + Rest(t) == t
    decreases |t|
  {
    if NL in t {
      var k := FirstNL(t);
      var head, tail := t[..k], t[k + 1..];
      var ls, r := CompleteLines(tail), Rest(tail);
      JoinOfCompleteLines(tail);
      assert CompleteLines(t) == [head] + ls;
      assert Rest(t) == r;
      assert t == head + [NL] + tail;
      JoinLinesConsRest(t, head, tail, ls, r);
    }
  }
}
