/**
 * `consume_while` of src/util.rs. The peekable character iterator is a
 * string together with the index of the next character it will yield.
 */
module Util {

  /** Where the longest run of characters satisfying `p`, starting at `from`, ends. */
  function SpanEnd(s: string, from: nat, p: char -> bool): (e: nat)
    requires from <= |s|
    ensures from <= e <= |s|
    ensures forall k :: from <= k < e ==> p(s[k])
    ensures e < |s| ==> !p(s[e])
    decreases |s| - from
  {
    if from < |s| && p(s[from]) then SpanEnd(s, from + 1, p) else from
  }

  /** A run that satisfies `p` up to `e` and stops there ends at `e`. */
  lemma {:induction false} SpanEndIs(s: string, from: nat, e: nat, p: char -> bool)
    requires from <= e <= |s|
    requires forall k :: from <= k < e ==> p(s[k])
    requires e < |s| ==> !p(s[e])
    ensures SpanEnd(s, from, p) == e
    decreases e - from
  {
    if from < e {
      SpanEndIs(s, from + 1, e, p);
    }
  }

  /**
   * Take characters while `p` holds. The iterator is left at `next`: the
   * first failing character is peeked but not consumed.
   */
  method ConsumeWhile(s: string, from: nat, p: char -> bool) returns (run: string, next: nat)
    requires from <= |s|
    ensures next == SpanEnd(s, from, p)
    ensures run == s[from..next] && run + s[next..] == s[from..]
    ensures forall k :: 0 <= k < |run| ==> p(run[k])
    ensures next < |s| ==> !p(s[next])
    ensures (from == |s| || !p(s[from])) ==> run == [] && next == from
  {
    run, next := [], from;
    while next < |s|
      invariant from <= next <= |s|
      invariant run == s[from..next]
      invariant SpanEnd(s, next, p) == SpanEnd(s, from, p)
      decreases |s| - next
    {
      var ch := s[next];
      if p(ch) {
        next := next + 1;
        run := run + [ch];
        continue;
      }
      break;
    }
  }
}
