/** Strings built from pieces, and their line structure: a text is a sequence of
    lines, each terminated by a '\n'. JoinLines writes lines out, SplitLines reads
    them back. */
module Text {

  /** The strings `parts` written one after the other, with no separator. */
  function Concat(parts: seq<string>): string
  {
    if parts == [] then "" else Concat(parts[..|parts| - 1]) + parts[|parts| - 1]
  }

  /** Appending to a text is associative. */
  lemma AppendAssoc(a: string, b: string, c: string)
    ensures (a + b) + c == a + (b + c)
  {
  }

  /** Joining two runs of strings is joining the first and then the second. */
  lemma {:induction false} ConcatAppend(ps: seq<string>, qs: seq<string>)
    ensures Concat(ps + qs) == Concat(ps) + Concat(qs)
  {
    if qs == [] {
      assert ps + qs == ps;
    } else {
      var n := |qs| - 1;
      assert (ps + qs)[..|ps + qs| - 1] == ps + qs[..n];
      assert (ps + qs)[|ps + qs| - 1] == qs[n];
      ConcatAppend(ps, qs[..n]);
    }
  }

  /** Appending one more piece appends its text. */
  lemma ConcatSnoc(ps: seq<string>, p: string)
    ensures Concat(ps + [p]) == Concat(ps) + p
  {
    assert (ps + [p])[..|ps|] == ps;
  }

  /** Pieces free of terminators join into a text free of terminators. */
  lemma {:induction false} ConcatNoNewline(ps: seq<string>)
    requires AllNoNewline(ps)
    ensures NoNewline(Concat(ps))
  {
    if ps != [] {
      var n := |ps| - 1;
      assert AllNoNewline(ps[..n]);
      ConcatNoNewline(ps[..n]);
      assert NoNewline(ps[n]);
      assert multiset(Concat(ps)) == multiset(Concat(ps[..n])) + multiset(ps[n]);
    }
  }

  /** True when `s` holds no line terminator. */
  predicate NoNewline(s: string) {
    '\n' !in s
  }

  /** True when no line of `ls` holds a line terminator. */
  predicate AllNoNewline(ls: seq<string>) {
    forall i :: 0 <= i < |ls| ==> NoNewline(ls[i])
  }

  /** The text made of the lines `ls`, each followed by one '\n'. */
  function JoinLines(ls: seq<string>): string
  {
    if ls == [] then "" else ls[0] + "\n" + JoinLines(ls[1..])
  }

  /** Index of the first '\n' in `s`, or |s| when there is none. */
  function FirstNewline(s: string): (k: nat)
    ensures k <= |s|
    ensures forall j :: 0 <= j < k ==> s[j] != '\n'
    ensures k < |s| ==> s[k] == '\n'
  {
    if s == [] || s[0] == '\n' then 0 else 1 + FirstNewline(s[1..])
  }

  /** Cuts `s` after every '\n'; a trailing piece without a terminator is kept as a last line. */
  function SplitLines(s: string): seq<string>
    decreases |s|
  {
    if s == [] then []
    else
      var k := FirstNewline(s);
      if k == |s| then [s] else [s[..k]] + SplitLines(s[k + 1..])
  }

  /** Writing out two runs of lines is writing out the lines of both, in order. */
  lemma {:induction false} JoinLinesAppend(a: seq<string>, b: seq<string>)
    ensures JoinLines(a + b) == JoinLines(a) + JoinLines(b)
  {
    if a == [] {
      assert a + b == b;
    } else {
      assert (a + b)[0] == a[0];
      assert (a + b)[1..] == a[1..] + b;
      JoinLinesAppend(a[1..], b);
    }
  }

  /** Lines free of terminators are read back exactly as written: none is lost, split or reordered. */
  lemma {:induction false} SplitJoinLines(ls: seq<string>)
    requires AllNoNewline(ls)
    ensures SplitLines(JoinLines(ls)) == ls
  {
    if ls != [] {
      var head := ls[0];
      var rest := JoinLines(ls[1..]);
      var s := JoinLines(ls);
      assert s == head + "\n" + rest;
      assert NoNewline(head);
      assert forall j :: 0 <= j < |head| ==> s[j] == head[j];
      assert s[|head|] == '\n';
      var k := FirstNewline(s);
      assert k == |head|;
      assert s[..k] == head;
      assert s[k + 1..] == rest;
      assert AllNoNewline(ls[1..]);
      SplitJoinLines(ls[1..]);
      assert ls == [head] + ls[1..];
    }
  }

  /** Lines free of terminators contribute exactly one '\n' each. */
  lemma {:induction false} JoinLinesNewlines(ls: seq<string>)
    requires AllNoNewline(ls)
    ensures multiset(JoinLines(ls))['\n'] == |ls|
  {
    if ls != [] {
      assert NoNewline(ls[0]);
      assert multiset(ls[0])['\n'] == 0;
      assert AllNoNewline(ls[1..]);
      JoinLinesNewlines(ls[1..]);
      assert JoinLines(ls) == ls[0] + "\n" + JoinLines(ls[1..]);
    }
  }
}
